/**
 * mychannel/fan_out.go: one input channel broadcast to a dynamic, ordered
 * list of sink channels.
 *
 * The holder's mutex is abstracted away (each public method is one atomic
 * step), and so is the broadcast goroutine: `Pump` is one iteration of its
 * loop. A sink that is full when a value is broadcast gets a detached send
 * goroutine instead; those pending sends are kept in `deferred` and any one
 * of them may be delivered later by `DeliverDeferred`.
 */
module FanOut {
  import opened Channels
  import opened Outcomes

  const AlreadyClosed := "FanOutHolder already closed"
  const NegativeSize := "channel size must be non-negative"

  /** A detached `go func() { ch <- v }()` that has not delivered yet. */
  datatype DeferredSend<T> = DeferredSend(sink: Chan<T>, value: T)

  /**
   * The detached sends one broadcast of `v` starts: one per sink without
   * room, in the order of the sinks.
   */
  function Deferrals<T>(cs: seq<Chan<T>>, room: seq<bool>, v: T): seq<DeferredSend<T>>
    requires |room| == |cs|
  {
    if cs == [] then []
    else (if room[0] then [] else [DeferredSend(cs[0], v)]) + Deferrals(cs[1..], room[1..], v)
  }

  /** The buffers of the sinks `cs`, read from the heap. */
  function Bufs<T>(cs: seq<Chan<T>>): (bufs: seq<seq<T>>)
    reads cs
    ensures |bufs| == |cs|
    ensures forall j :: 0 <= j < |cs| ==> bufs[j] == cs[j].buf
  {
    if cs == [] then [] else Bufs(cs[..|cs| - 1]) + [cs[|cs| - 1].buf]
  }

  /** No sink is registered twice. */
  predicate Distinct<T>(cs: seq<Chan<T>>)
  {
    forall i, j :: 0 <= i < j < |cs| ==> cs[i] != cs[j]
  }

  /** Every sink respects its capacity and is closed exactly when `closed`. */
  predicate SinksSound<T>(cs: seq<Chan<T>>, closed: bool)
    reads cs
  {
    forall j :: 0 <= j < |cs| ==> |cs[j].buf| <= cs[j].cap && cs[j].closed == closed
  }

  /** Extending the prefix by one sink adds that sink's deferral, if any. */
  lemma {:induction false} DeferralsExtend<T>(cs: seq<Chan<T>>, room: seq<bool>, r: bool, v: T)
    requires |room| < |cs|
    ensures var i := |room|;
            Deferrals(cs[..i + 1], room + [r], v)
            == Deferrals(cs[..i], room, v) + (if r then [] else [DeferredSend(cs[i], v)])
  {
    if room != [] {
      DeferralsExtend(cs[1..], room[1..], r, v);
      assert cs[..|room| + 1][1..] == cs[1..][..|room[1..]| + 1];
      assert cs[..|room|][1..] == cs[1..][..|room[1..]|];
      assert (room + [r])[1..] == room[1..] + [r];
    }
  }

  /**
   * A broadcast defers a send exactly to the sinks without room, always of
   * the broadcast value: nothing is deferred to a sink that took `v` inline.
   */
  lemma {:induction false} DeferralsAreFullSinks<T>(cs: seq<Chan<T>>, room: seq<bool>, v: T)
    requires |room| == |cs|
    ensures forall d :: d in Deferrals(cs, room, v) <==>
              exists j :: 0 <= j < |cs| && !room[j] && d == DeferredSend(cs[j], v)
  {
    if cs != [] {
      DeferralsAreFullSinks(cs[1..], room[1..], v);
      forall d
        ensures d in Deferrals(cs, room, v) <==>
                exists j :: 0 <= j < |cs| && !room[j] && d == DeferredSend(cs[j], v)
      {
        if exists j :: 0 <= j < |cs| && !room[j] && d == DeferredSend(cs[j], v) {
          var j :| 0 <= j < |cs| && !room[j] && d == DeferredSend(cs[j], v);
          if j > 0 {
            assert cs[1..][j - 1] == cs[j] && room[1..][j - 1] == room[j];
          }
        }
        if d in Deferrals(cs[1..], room[1..], v) {
          var j :| 0 <= j < |cs[1..]| && !room[1..][j] && d == DeferredSend(cs[1..][j], v);
          assert cs[j + 1] == cs[1..][j];
        }
      }
    }
  }

  /** In a list without duplicates, the sink at `i` is at no other index. */
  lemma DistinctAt<T>(cs: seq<Chan<T>>, i: nat)
    requires Distinct(cs) && i < |cs|
    ensures forall j :: 0 <= j < |cs| && j != i ==> cs[j] != cs[i]
  {
  }

  /**
   * The `select` of the broadcast loop for one sink: send inline when it
   * has room, otherwise start a detached send, which is returned.
   */
  method Offer<T>(ch: Chan<T>, v: T) returns (pending: seq<DeferredSend<T>>)
    requires !ch.closed
    modifies ch
    ensures ch.closed == old(ch.closed)
    ensures ch.buf == if |old(ch.buf)| < ch.cap then old(ch.buf) + [v] else old(ch.buf)
    ensures pending == if |old(ch.buf)| < ch.cap then [] else [DeferredSend(ch, v)]
  {
    if ch.HasRoom() {
      ch.Send(v);
      pending := [];
    } else {
      pending := [DeferredSend(ch, v)];
    }
  }

  /**
   * The loop of the broadcast over the open sinks `sinks`, in order; `room`
   * records which of them had room, `pending` the detached sends started.
   */
  method OfferAll<T>(sinks: seq<Chan<T>>, v: T) returns (ghost room: seq<bool>, pending: seq<DeferredSend<T>>)
    requires Distinct(sinks) && SinksSound(sinks, false)
    modifies sinks
    ensures SinksSound(sinks, false)
    ensures |room| == |sinks| && forall j :: 0 <= j < |sinks| ==> room[j] == old(sinks[j].HasRoom())
    ensures forall j :: 0 <= j < |sinks| ==>
              sinks[j].buf == if room[j] then old(sinks[j].buf) + [v] else old(sinks[j].buf)
    ensures pending == Deferrals(sinks, room, v)
  {
    room, pending := [], [];
    ghost var before := Bufs(sinks);
    var i := 0;
    while i < |sinks|
      invariant 0 <= i <= |sinks| && |room| == i
      invariant forall j :: 0 <= j < i ==> room[j] == (|before[j]| < sinks[j].cap)
      invariant forall j :: 0 <= j < i ==>
                  sinks[j].buf == if |before[j]| < sinks[j].cap then before[j] + [v] else before[j]
      invariant forall j :: i <= j < |sinks| ==> sinks[j].buf == before[j]
      invariant forall j :: 0 <= j < |sinks| ==> !sinks[j].closed
      invariant pending == Deferrals(sinks[..i], room, v)
    {
      ghost var r := |sinks[i].buf| < sinks[i].cap;
      DeferralsExtend(sinks, room, r, v);
      DistinctAt(sinks, i);
      room := room + [r];
      var p := Offer(sinks[i], v);
      pending := pending + p;
      i := i + 1;
    }
    assert sinks[..i] == sinks;
  }

  /** The position of `ch` in `outs`, or -1: the search loop of Remove. */
  method Find<T>(outs: seq<Chan<T>>, ch: Chan<T>) returns (idx: int)
    ensures -1 <= idx < |outs|
    ensures idx == -1 <==> ch !in outs
    ensures 0 <= idx ==> outs[idx] == ch && ch !in outs[..idx]
  {
    idx := -1;
    var i := 0;
    while i < |outs|
      invariant 0 <= i <= |outs|
      invariant ch !in outs[..i]
    {
      if outs[i] == ch {
        idx := i;
        break;
      }
      i := i + 1;
    }
  }

  class FanOutHolder<T> {
    const ctx: Context
    const input: Chan<T>
    var started: bool
    var closed: bool
    var outs: seq<Chan<T>>
    var deferred: seq<DeferredSend<T>>

    /**
     * The sinks are distinct, none of them is the input, each respects its
     * capacity, a sink is closed exactly when the holder is, and a closed
     * holder has cancelled its context.
     */
    ghost predicate Valid()
      reads this, ctx, outs
    {
      && Distinct(outs)
      && input !in outs
      && SinksSound(outs, closed)
      && (closed ==> ctx.cancelled)
    }

    /** FanOut(ctx, in): a fresh holder with a derived, cancellable context. */
    constructor (parent: Context, input: Chan<T>)
      ensures Valid()
      ensures fresh(ctx) && ctx.cancelled == parent.cancelled && this.input == input
      ensures !started && !closed && outs == [] && deferred == []
    {
      ctx := new Context.WithCancel(parent);
      this.input := input;
      started, closed := false, false;
      outs, deferred := [], [];
    }

    /** Start: a no-op once started; a panic on a closed, never-started holder. */
    method Start() returns (r: Result<()>)
      requires Valid()
      modifies this`started
      ensures Valid()
      ensures old(started) ==> r == Ok(()) && started
      ensures !old(started) && closed ==> r == Panic(AlreadyClosed) && !started
      ensures !old(started) && !closed ==> r == Ok(()) && started
    {
      if started {
        return Ok(());
      }
      if closed {
        return Panic(AlreadyClosed);
      }
      started := true;
      return Ok(());
    }

    /**
     * Close: idempotent. The first call marks the holder closed, cancels its
     * context and closes every registered sink, leaving their buffers as
     * they were.
     */
    method Close()
      requires Valid()
      modifies this`closed, ctx, outs
      ensures Valid() && closed
      ensures old(closed) ==> unchanged(ctx) && forall c :: c in outs ==> unchanged(c)
      ensures ctx.cancelled
      ensures forall c :: c in outs ==> c.closed && c.buf == old(c.buf)
    {
      if closed {
        return;
      }
      closed := true;
      ctx.Cancel();
      var i := 0;
      while i < |outs|
        invariant 0 <= i <= |outs|
        invariant closed && ctx.cancelled
        invariant forall j :: 0 <= j < i ==> outs[j].closed
        invariant forall j :: i <= j < |outs| ==> !outs[j].closed
        invariant forall c :: c in outs ==> c.buf == old(c.buf)
      {
        outs[i].Close();
        i := i + 1;
      }
    }

    /**
     * Add: a panic on a closed holder (checked first) or a negative size;
     * otherwise a fresh, open, empty sink of capacity `chsize` is appended.
     */
    method Add(chsize: int) returns (r: Result<Chan<T>>)
      requires Valid()
      modifies this`outs
      ensures Valid()
      ensures old(closed) ==> r == Panic(AlreadyClosed) && outs == old(outs)
      ensures !old(closed) && chsize < 0 ==> r == Panic(NegativeSize) && outs == old(outs)
      ensures !old(closed) && chsize >= 0 ==>
                && r.Ok? && fresh(r.value)
                && r.value.cap == chsize && r.value.buf == [] && !r.value.closed
                && outs == old(outs) + [r.value]
    {
      if closed {
        return Panic(AlreadyClosed);
      }
      if chsize < 0 {
        return Panic(NegativeSize);
      }
      var ch := new Chan<T>.Make(chsize);
      outs := outs + [ch];
      return Ok(ch);
    }

    /**
     * Remove: a no-op on a closed holder or an unknown sink; otherwise the
     * sink is drained (closed and emptied) and spliced out, the other sinks
     * keeping their order.
     */
    method Remove(ch: Chan<T>)
      requires Valid()
      modifies this`outs, ch
      ensures Valid()
      ensures old(closed) || ch !in old(outs) ==> outs == old(outs) && unchanged(ch)
      ensures !old(closed) && ch in old(outs) ==>
                && ch.closed && ch.buf == [] && ch !in outs
                && exists i :: 0 <= i < |old(outs)| && old(outs)[i] == ch
                               && outs == old(outs)[..i] + old(outs)[i + 1..]
    {
      if closed {
        return;
      }
      var idx := Find(outs, ch);
      if idx == -1 {
        return;
      }
      Drain(outs[idx]);
      outs := outs[..idx] + outs[idx + 1..];
    }

    /**
     * One pass of the broadcast loop over the sinks: a sink with room gets
     * `v` appended inline; a full sink gets a deferred send of `v`. The sink
     * list is unchanged.
     */
    method Broadcast(v: T) returns (ghost room: seq<bool>)
      requires Valid() && !closed
      modifies outs, this`deferred
      ensures Valid()
      ensures |room| == |outs| && forall j :: 0 <= j < |outs| ==> room[j] == old(outs[j].HasRoom())
      ensures forall j :: 0 <= j < |outs| ==>
                outs[j].buf == if room[j] then old(outs[j].buf) + [v] else old(outs[j].buf)
      ensures deferred == old(deferred) + Deferrals(outs, room, v)
    {
      var pending;
      room, pending := OfferAll(outs, v);
      deferred := deferred + pending;
    }

    /**
     * One iteration of the goroutine started by Start: read one value from
     * the input (or observe cancellation); stop and Close when the input is
     * closed or the context is done, otherwise broadcast the value.
     */
    method Pump(zero: T, pickReceive: bool) returns (running: bool, ghost room: seq<bool>)
      requires Valid() && started && !closed
      requires input.Receivable() || ctx.cancelled
      modifies this`closed, this`deferred, ctx, input, outs
      ensures Valid()
      ensures running == (old(input.buf) != [] && FirstCaseTaken(true, old(ctx.cancelled), pickReceive))
      ensures running ==> !closed && input.buf == old(input.buf[1..])
      ensures running ==> |room| == |outs| && forall j :: 0 <= j < |outs| ==> room[j] == old(outs[j].HasRoom())
      ensures running ==> forall j :: 0 <= j < |outs| ==>
                outs[j].buf == if room[j] then old(outs[j].buf) + [old(input.buf[0])] else old(outs[j].buf)
      ensures running ==> deferred == old(deferred) + Deferrals(outs, room, old(input.buf[0]))
      ensures !running ==> closed && ctx.cancelled && deferred == old(deferred)
      ensures !running ==> forall c :: c in outs ==> c.closed && c.buf == old(c.buf)
      ensures input.closed == old(input.closed)
      ensures !running ==> input.buf == old(input.buf)
      ensures running ==> ctx.cancelled == old(ctx.cancelled)
    {
      var v, ok, ctxAlive := ReadOne(ctx, input, zero, pickReceive);
      if !ok || !ctxAlive {
        Close();
        return false, [];
      }
      room := Broadcast(v);
      running := true;
    }

    /**
     * A detached send completes: the pending value is appended to its sink.
     * Sends on a sink that was meanwhile removed or closed are not modelled.
     */
    method DeliverDeferred(k: nat)
      requires Valid() && !closed && k < |deferred|
      requires deferred[k].sink in outs && deferred[k].sink.HasRoom()
      modifies deferred[k].sink, this`deferred
      ensures Valid()
      ensures old(deferred[k].sink).buf == old(deferred[k].sink.buf) + [old(deferred[k].value)]
      ensures deferred == old(deferred[..k] + deferred[k + 1..])
    {
      var d := deferred[k];
      d.sink.Send(d.value);
      deferred := deferred[..k] + deferred[k + 1..];
    }
  }

  /**
   * The reordering documented on Start: a sink of capacity 1 that is full
   * when 2 is broadcast gets 2 through a deferred send, so after its reader
   * takes 1 it may see 3 (delivered inline) before 2.
   */
  method DeferredSendReorders() returns (seen: seq<int>)
    ensures seen == [1, 3, 2]
  {
    var h, sink := StartedWithOneSink();
    var first := FillThenDefer(h, sink);
    var second := OvertakeDeferred(h, sink);
    h.DeliverDeferred(0);
    var third := sink.Receive();
    seen := [first, second, third];
  }

  /** A started holder on an unbuffered input with one empty sink of capacity 1. */
  method StartedWithOneSink() returns (h: FanOutHolder<int>, sink: Chan<int>)
    ensures fresh(h) && fresh(sink) && h.Valid() && h.started && !h.closed
    ensures h.outs == [sink] && sink.cap == 1 && sink.buf == [] && h.deferred == []
  {
    var parent := new Context(false);
    var input := new Chan<int>.Make(0);
    h := new FanOutHolder<int>(parent, input);
    var added := h.Add(1);
    sink := added.value;
    var _ := h.Start();
  }

  /** 1 is sent inline and fills the sink; 2 becomes a deferred send; the reader takes 1. */
  method FillThenDefer(h: FanOutHolder<int>, sink: Chan<int>) returns (first: int)
    requires h.Valid() && !h.closed && h.outs == [sink] && sink.cap == 1 && sink.buf == [] && h.deferred == []
    modifies h, sink
    ensures h.Valid() && !h.closed && h.outs == [sink] && sink.buf == []
    ensures h.deferred == [DeferredSend(sink, 2)] && first == 1
  {
    var _ := h.Broadcast(1);
    assert sink.buf == [1];
    var _ := h.Broadcast(2);
    assert sink.buf == [1] && h.deferred == [DeferredSend(sink, 2)];
    first := sink.Receive();
  }

  /** With 2 still pending, 3 finds room and is sent inline; the reader takes 3. */
  method OvertakeDeferred(h: FanOutHolder<int>, sink: Chan<int>) returns (second: int)
    requires h.Valid() && !h.closed && h.outs == [sink] && sink.cap == 1 && sink.buf == []
    requires h.deferred == [DeferredSend(sink, 2)]
    modifies h, sink
    ensures h.Valid() && !h.closed && h.outs == [sink] && sink.buf == []
    ensures h.deferred == [DeferredSend(sink, 2)] && second == 3
  {
    var _ := h.Broadcast(3);
    assert sink.buf == [3] && h.deferred == [DeferredSend(sink, 2)];
    second := sink.Receive();
  }
}
