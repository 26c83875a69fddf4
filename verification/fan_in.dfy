/**
 * mychannel/fan_in.go: several member channels merged into one output
 * channel, one relay goroutine per member.
 *
 * The holder's mutex is abstracted away (each public method is one atomic
 * step). A relay goroutine is not run; it is recorded as the pair of the
 * member it reads and the close-signal it watches, and it counts as running
 * while that signal is open.
 */
module FanIn {
  import Channels
  import opened Outcomes

  const AlreadyClosed := "FanInHolder already closed"

  /** A `chan struct{}` used only to be closed. */
  class Signal {
    var closed: bool

    constructor ()
      ensures !closed
    {
      closed := false;
    }

    /** close(s); closing a closed signal panics, so it is excluded. */
    method Close()
      requires !closed
      modifies this
      ensures closed
    {
      closed := true;
    }
  }

  /** A spawned `read(ch, iamclosed)` goroutine. */
  datatype Relay<T> = Relay(member: Channels.Chan<T>, signal: Signal)

  /** No two members share a signal. */
  predicate Injective<T>(chans: map<Channels.Chan<T>, Signal>)
  {
    forall a, b :: a in chans && b in chans && a != b ==> chans[a] != chans[b]
  }

  /** The relay records for every member of `chans`, each on its current signal. */
  function RelaysFor<T>(chans: map<Channels.Chan<T>, Signal>): (rs: set<Relay<T>>)
    ensures forall r :: r in rs ==> r.member in chans && chans[r.member] == r.signal
    ensures forall ch :: ch in chans ==> Relay(ch, chans[ch]) in rs
  {
    set ch | ch in chans :: Relay(ch, chans[ch])
  }

  class FanInHolder<T> {
    var started: bool
    var closed: bool
    var chans: map<Channels.Chan<T>, Signal>
    const out: Channels.Chan<T>
    var relays: set<Relay<T>>

    /**
     * The output is unbuffered and closed exactly when the holder is; every
     * member has its own signal, closed exactly when the holder is; no relay
     * exists before start.
     */
    ghost predicate Valid()
      reads this, out, chans.Values
    {
      && out.cap == 0
      && out.closed == closed
      && Injective(chans)
      && (forall ch :: ch in chans ==> chans[ch].closed == closed)
      && (!started ==> relays == {})
    }

    /** The signals the spawned relays watch. */
    function RelaySignals(): set<Signal>
      reads this
    {
      set r | r in relays :: r.signal
    }

    /**
     * Every relay still running reads a current member and watches that
     * member's current signal, so closing the signal stops it.
     */
    ghost predicate RelaysTracked()
      reads this, RelaySignals()
    {
      forall r :: r in relays && !r.signal.closed ==> r.member in chans && chans[r.member] == r.signal
    }

    /** A relay reading `ch` is still running. */
    ghost predicate RelayRunning(ch: Channels.Chan<T>)
      reads this, RelaySignals()
    {
      exists r :: r in relays && r.member == ch && !r.signal.closed
    }

    /**
     * FanIn(chans...): each given channel becomes a member with a fresh open
     * signal (a repeated channel is one member); the holder is neither
     * started nor closed and its output is open.
     */
    constructor (members: seq<Channels.Chan<T>>)
      ensures Valid() && RelaysTracked()
      ensures chans.Keys == set ch | ch in members
      ensures forall ch :: ch in chans ==> fresh(chans[ch])
      ensures !started && !closed && relays == {}
      ensures fresh(out) && out.buf == [] && !out.closed
    {
      var m: map<Channels.Chan<T>, Signal> := map[];
      var i := 0;
      while i < |members|
        invariant 0 <= i <= |members|
        invariant m.Keys == set ch | ch in members[..i]
        invariant forall ch :: ch in m ==> fresh(m[ch]) && !m[ch].closed
        invariant Injective(m)
      {
        var signal := new Signal();
        m := m[members[i] := signal];
        assert members[..i + 1] == members[..i] + [members[i]];
        i := i + 1;
      }
      assert members[..i] == members;
      started, closed := false, false;
      chans := m;
      out := new Channels.Chan<T>.Make(0);
      relays := {};
    }

    /**
     * start: a no-op once started; a panic on a closed, never-started
     * holder; otherwise the holder is started with one relay per member.
     */
    method Start() returns (r: Result<()>)
      requires Valid()
      modifies this`started, this`relays
      ensures Valid()
      ensures old(started) ==> r == Ok(()) && started && relays == old(relays)
      ensures !old(started) && closed ==> r == Panic(AlreadyClosed) && !started && relays == old(relays)
      ensures !old(started) && !closed ==> r == Ok(()) && started && relays == RelaysFor(chans)
      ensures old(RelaysTracked()) ==> RelaysTracked()
    {
      if started {
        return Ok(());
      }
      if closed {
        return Panic(AlreadyClosed);
      }
      started := true;
      var todo := chans.Keys;
      while todo != {}
        invariant started && todo <= chans.Keys
        invariant forall rl :: rl in relays <==>
                    rl.member in chans && rl.member !in todo && chans[rl.member] == rl.signal
        decreases |todo|
      {
        var ch :| ch in todo;
        relays := relays + {Relay(ch, chans[ch])};
        todo := todo - {ch};
      }
      assert relays == RelaysFor(chans);
      return Ok(());
    }

    /** Chan: starts the holder (possibly panicking) and returns its output. */
    method Chan() returns (r: Result<Channels.Chan<T>>)
      requires Valid()
      modifies this`started, this`relays
      ensures Valid()
      ensures !old(started) && closed ==> r == Panic(AlreadyClosed) && !started && relays == old(relays)
      ensures old(started) || !closed ==> r == Ok(out) && started
      ensures old(started) ==> relays == old(relays)
      ensures !old(started) && !closed ==> relays == RelaysFor(chans)
      ensures old(RelaysTracked()) ==> RelaysTracked()
    {
      var s := Start();
      if s.Panic? {
        return Panic(s.message);
      }
      return Ok(out);
    }

    /**
     * Close: idempotent. The first call marks the holder closed, closes every
     * member's signal and closes the output; members and relays stay recorded.
     */
    method Close()
      requires Valid()
      modifies this`closed, out, chans.Values
      ensures Valid() && closed && out.closed && out.buf == old(out.buf)
      ensures forall ch :: ch in chans ==> chans[ch].closed
      ensures chans == old(chans) && started == old(started) && relays == old(relays)
      ensures old(RelaysTracked()) ==> forall rl :: rl in relays ==> rl.signal.closed
    {
      if closed {
        return;
      }
      closed := true;
      var todo := chans.Keys;
      while todo != {}
        invariant todo <= chans.Keys
        invariant forall ch :: ch in chans ==> (chans[ch].closed <==> ch !in todo)
        invariant closed && !out.closed && out.buf == old(out.buf)
        decreases |todo|
      {
        var ch :| ch in todo;
        chans[ch].Close();
        todo := todo - {ch};
      }
      out.Close();
    }

    /**
     * Remove: a no-op on a closed holder or an unknown channel; otherwise the
     * member is deleted and its signal closed, the other members unchanged.
     */
    method Remove(ch: Channels.Chan<T>)
      requires Valid()
      modifies this`chans, if ch in chans then {chans[ch]} else {}
      ensures Valid()
      ensures closed || ch !in old(chans) ==> chans == old(chans)
      ensures !closed && ch in old(chans) ==> chans == old(chans) - {ch} && old(chans[ch]).closed
      ensures old(RelaysTracked()) ==> RelaysTracked() && !RelayRunning(ch)
    {
      if closed {
        return;
      }
      if ch !in chans {
        return;
      }
      var signal := chans[ch];
      chans := chans - {ch};
      signal.Close();
    }

    /**
     * Add, as written: a no-op on a closed holder; otherwise `ch` is mapped
     * to a fresh signal, replacing the signal of an existing member, and on a
     * started holder a relay for `ch` on the new signal is spawned. A relay
     * already running for `ch` keeps watching the replaced signal.
     */
    method Add(ch: Channels.Chan<T>)
      requires Valid()
      modifies this`chans, this`relays
      ensures Valid()
      ensures closed ==> chans == old(chans) && relays == old(relays)
      ensures !closed ==> ch in chans && fresh(chans[ch]) && chans == old(chans)[ch := chans[ch]]
      ensures !closed && started ==> relays == old(relays) + {Relay(ch, chans[ch])}
      ensures !closed && !started ==> relays == old(relays)
    {
      if closed {
        return;
      }
      var signal := new Signal();
      chans := chans[ch := signal];
      if started {
        relays := relays + {Relay(ch, signal)};
      }
    }

    /**
     * Add as its test intends ("adding the same channel does nothing"): a
     * no-op for a closed holder or a channel already a member; otherwise as
     * Add. It keeps every running relay tracked.
     */
    method AddOnce(ch: Channels.Chan<T>)
      requires Valid()
      modifies this`chans, this`relays
      ensures Valid()
      ensures closed || ch in old(chans) ==> chans == old(chans) && relays == old(relays)
      ensures !closed && ch !in old(chans) ==> ch in chans && fresh(chans[ch]) && chans == old(chans)[ch := chans[ch]]
      ensures !closed && ch !in old(chans) && started ==> relays == old(relays) + {Relay(ch, chans[ch])}
      ensures !closed && ch !in old(chans) && !started ==> relays == old(relays)
      ensures old(RelaysTracked()) ==> RelaysTracked()
    {
      if closed || ch in chans {
        return;
      }
      Add(ch);
    }
  }

  /**
   * The re-Add defect: on a started holder, adding a member a second time
   * and then removing it leaves the first relay running, although the
   * channel is no longer a member.
   */
  method ReAddLeaksRelay() returns (h: FanInHolder<int>, c: Channels.Chan<int>)
    ensures h.Valid() && c !in h.chans && h.RelayRunning(c)
  {
    c := new Channels.Chan<int>.Make(1);
    h := new FanInHolder<int>([]);
    var _ := h.Start();
    h.Add(c);
    var first := h.chans[c];
    assert Relay(c, first) in h.relays && !first.closed;
    h.Add(c);
    assert first != h.chans[c];
    h.Remove(c);
    assert Relay(c, first) in h.relays && !first.closed;
  }

  /** With AddOnce in place of Add, the same sequence stops every relay for the channel. */
  method AddOnceThenRemoveStops() returns (h: FanInHolder<int>, c: Channels.Chan<int>)
    ensures h.Valid() && c !in h.chans && !h.RelayRunning(c)
  {
    c := new Channels.Chan<int>.Make(1);
    h := new FanInHolder<int>([]);
    var _ := h.Start();
    h.AddOnce(c);
    h.AddOnce(c);
    h.Remove(c);
  }
}
