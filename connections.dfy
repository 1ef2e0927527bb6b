/**
 * okie/ctrl/connections.py: the bookkeeping of `ConnectionController`.
 * `make_connection` is split into Acquire (the code before `yield`) and
 * Release (its `finally` block). The semaphore is a permit counter, and
 * `asyncio.open_connection` hands out a fresh abstract handle numbered by a
 * counter; whether it succeeds is a parameter. `close_all` is modelled as
 * written, with the `asyncio.wait` it meets as a parameter, and beside it as
 * intended. Closing a stream itself is not modelled.
 */
module Connections {
  import opened Results

  const DEFAULT_SSL_HANDSHAKE_TIMEOUT: real := 60.0
  const DEFAULT_HTTPS_PORT: int := 443
  const DEFAULT_HTTP_PORT: int := 80

  /** An open stream: what `open_connection` was called with, and a number that tells streams apart. */
  datatype Handle = Handle(id: nat, host: string, port: int, ssl: bool, handshakeTimeout: Option<real>)

  /**
   * What one entry into `make_connection` comes to: the caller waits for the
   * permit, gets a stream, or sees `open_connection` raise.
   */
  datatype Acquired = Blocked | Granted(stream: Handle) | ConnectFailed

  /** Python's `x or y` on an optional number: None and zero are false. */
  function OrElse(x: Option<real>, y: real): (r: real)
    ensures x.Some? && x.value != 0.0 ==> r == x.value
    ensures x.None? || x.value == 0.0 ==> r == y
  {
    if x.Some? && x.value != 0.0 then x.value else y
  }

  /** The port of a fresh connection: the given one, or 443 with TLS and 80 without. */
  function PortFor(port: Option<int>, ssl: bool): (p: int)
    ensures port.Some? ==> p == port.value
    ensures port.None? && ssl ==> p == 443
    ensures port.None? && !ssl ==> p == 80
  {
    if port.Some? then port.value else if ssl then DEFAULT_HTTPS_PORT else DEFAULT_HTTP_PORT
  }

  /** The handshake timeout passed to `open_connection`: only with TLS, the per-call one first. */
  function HandshakeFor(ssl: bool, perCall: Option<real>, controllerDefault: real): (t: Option<real>)
    ensures !ssl <==> t.None?
    ensures ssl ==> t == Some(OrElse(perCall, controllerDefault))
  {
    if ssl then Some(OrElse(perCall, controllerDefault)) else None
  }

  /**
   * The `asyncio.wait` that `close_all` runs against. Up to Python 3.11 a
   * generator counts as a coroutine, and `wait` refuses it outright. From 3.12
   * on `wait` first collects the generator into a set; it then refuses the
   * coroutines in a non-empty set, and an empty set fails the assertion in its
   * internal `_wait`.
   */
  datatype Asyncio = UpTo311 | From312

  /** What `asyncio.wait` raises on `close_all`'s generator; `live` says whether the generator yields anything. */
  function WaitError(v: Asyncio, live: bool): (e: PyError)
    ensures e == AssertionError <==> v.From312? && !live
    ensures e == TypeError <==> v.UpTo311? || live
  {
    if v.From312? && !live then AssertionError else TypeError
  }

  class ConnectionController {
    var deque: seq<Option<Handle>>
    var busy: set<Option<Handle>>
    var permits: nat
    var closed: bool
    const sslHandshakeTimeout: real
    /** How many streams were opened so far; the next one gets this number. */
    var streamsOpened: nat

    /**
     * One permit in all: while a stream is lent out the deque is empty, and
     * otherwise it holds at most one slot. Every stream has an earlier number.
     */
    ghost predicate Valid()
      reads this
    {
      && permits <= 1
      && |deque| <= permits
      && (forall i :: 0 <= i < |deque| && deque[i].Some? ==> deque[i].value.id < streamsOpened)
      && (forall s :: s in busy && s.Some? ==> s.value.id < streamsOpened)
    }

    constructor (sslHandshakeTimeout: Option<real>)
      ensures Valid()
      ensures deque == [] && busy == {} && permits == 1 && !closed && streamsOpened == 0
      ensures this.sslHandshakeTimeout == OrElse(sslHandshakeTimeout, DEFAULT_SSL_HANDSHAKE_TIMEOUT)
    {
      deque := [];
      busy := {};
      permits := 1;
      closed := false;
      this.sslHandshakeTimeout := OrElse(sslHandshakeTimeout, DEFAULT_SSL_HANDSHAKE_TIMEOUT);
      streamsOpened := 0;
    }

    /**
     * `make_connection` up to its `yield`. Without a permit the caller would
     * wait, which here is Blocked with nothing changed. Otherwise the permit
     * is taken, the deque head (or None when the deque is empty) is moved to
     * the busy set, and a None slot is replaced by a freshly opened stream.
     * `connects` says whether `open_connection` succeeds; when it raises, the
     * exception leaves before the `try`, so the permit stays taken and None
     * stays in the busy set.
     */
    method Acquire(host: string, port: Option<int>, ssl: bool, handshakeTimeout: Option<real>, connects: bool)
      returns (r: Acquired)
      requires Valid()
      modifies this
      ensures Valid()
      ensures old(permits) == 0 ==> r == Blocked && unchanged(this)
      ensures old(permits) > 0 ==>
        var slot := if old(deque) != [] then old(deque)[0] else None;
        && permits == old(permits) - 1
        && deque == (if old(deque) != [] then old(deque)[1..] else [])
        && busy == old(busy) + {slot}
        && closed == old(closed)
        && (slot.Some? ==> r == Granted(slot.value) && streamsOpened == old(streamsOpened))
        && (slot.None? && connects ==>
              && r == Granted(Handle(old(streamsOpened), host, PortFor(port, ssl), ssl,
                                     HandshakeFor(ssl, handshakeTimeout, sslHandshakeTimeout)))
              && streamsOpened == old(streamsOpened) + 1)
        && (slot.None? && !connects ==> r == ConnectFailed && streamsOpened == old(streamsOpened))
      ensures r.Granted? ==> r.stream.id < streamsOpened
    {
      if permits == 0 {
        return Blocked;
      }
      permits := permits - 1;
      var slot: Option<Handle> := None;
      if deque != [] {
        slot := deque[0];
        deque := deque[1..];
      }
      busy := busy + {slot};
      if slot.Some? {
        r := Granted(slot.value);
      } else if connects {
        r := Granted(Handle(streamsOpened, host, PortFor(port, ssl), ssl,
                            HandshakeFor(ssl, handshakeTimeout, sslHandshakeTimeout)));
        streamsOpened := streamsOpened + 1;
      } else {
        r := ConnectFailed;
      }
    }

    /**
     * The `finally` of `make_connection`: the stream goes back to the tail of
     * the deque, leaves the busy set, and the permit is returned. It runs only
     * after an Acquire that took the permit.
     */
    method Release(stream: Handle)
      requires Valid() && permits == 0 && stream.id < streamsOpened
      modifies this
      ensures Valid()
      ensures deque == old(deque) + [Some(stream)] && deque == [Some(stream)]
      ensures busy == old(busy) - {Some(stream)}
      ensures permits == 1
      ensures closed == old(closed) && streamsOpened == old(streamsOpened)
    {
      deque := deque + [Some(stream)];
      busy := busy - {Some(stream)};
      permits := permits + 1;
    }

    /**
     * `close_all` as written: the first call marks the controller closed and
     * then hands `asyncio.wait` a generator, which it refuses on every Python
     * version (see WaitError). The error propagates, so the reset of the deque
     * and busy set that follows is never reached and no stream is closed.
     * Later calls do nothing.
     */
    method CloseAll(v: Asyncio) returns (r: Outcome)
      requires Valid()
      modifies this
      ensures Valid()
      ensures old(closed) ==> r == Done && unchanged(this)
      ensures !old(closed) ==>
        && r == Raised(WaitError(v, HasLive(old(deque), old(busy))))
        && closed && deque == old(deque) && busy == old(busy)
        && permits == old(permits) && streamsOpened == old(streamsOpened)
    {
      if closed {
        return Done;
      }
      closed := true;
      r := Raised(WaitError(v, HasLive(deque, busy)));
    }

    /**
     * `close_all` as its last two lines mean it to end: the live streams are
     * closed, the deque keeps its length with only empty slots and the busy
     * set is cleared, so no live stream is left. Later calls do nothing.
     */
    method CloseAllIntended() returns (r: Outcome)
      requires Valid()
      modifies this
      ensures Valid() && r == Done
      ensures old(closed) ==> unchanged(this)
      ensures !old(closed) ==>
        && closed && permits == old(permits) && streamsOpened == old(streamsOpened)
        && |deque| == |old(deque)| && (forall i :: 0 <= i < |deque| ==> deque[i].None?)
        && busy == {}
      ensures closed && (!old(closed) ==> !HasLive(deque, busy))
    {
      if closed {
        return Done;
      }
      closed := true;
      deque := seq(|deque|, _ => None);
      busy := {};
      r := Done;
    }
  }

  /** Some pooled or lent-out slot holds a stream, so `close_all` has something to close. */
  predicate HasLive(deque: seq<Option<Handle>>, busy: set<Option<Handle>>)
  {
    (exists i :: 0 <= i < |deque| && deque[i].Some?) || (exists s :: s in busy && s.Some?)
  }

  /** With one permit, a released stream is the one the next Acquire hands out. */
  method ReleaseThenReuse(host: string) returns (first: Acquired, second: Acquired)
    ensures first.Granted? && second.Granted? && second.stream == first.stream
    ensures first.stream.port == 80 && first.stream.handshakeTimeout == None
  {
    var c := new ConnectionController(None);
    first := c.Acquire(host, None, false, None, true);
    c.Release(first.stream);
    second := c.Acquire(host, None, false, None, true);
  }

  /** A first stream is freshly opened; once it is released, None stays in the busy set. */
  method FreshLeavesNoneBusy(host: string) returns (busy: set<Option<Handle>>, deque: seq<Option<Handle>>)
    ensures busy == {None}
    ensures |deque| == 1 && deque[0].Some? && deque[0].value.id == 0
  {
    var c := new ConnectionController(None);
    var a := c.Acquire(host, Some(8443), true, None, true);
    c.Release(a.stream);
    busy, deque := c.busy, c.deque;
  }

  /** While the only permit is out, a second Acquire has to wait. */
  method SecondAcquireWaits(host: string) returns (second: Acquired)
    ensures second == Blocked
  {
    var c := new ConnectionController(Some(5.0));
    var first := c.Acquire(host, None, true, None, true);
    second := c.Acquire(host, None, true, None, true);
  }

  /**
   * `close_all` as written, on a pool holding one released stream: it raises
   * a TypeError on every Python version, and the stream it was meant to close
   * is handed out again by the next acquisition.
   */
  method CloseAllThenAcquire(host: string, v: Asyncio) returns (before: Acquired, closing: Outcome, after: Acquired)
    ensures before.Granted? && after.Granted?
    ensures closing == Raised(TypeError)
    ensures after.stream == before.stream
  {
    var c := new ConnectionController(Some(0.0));
    before := c.Acquire(host, None, true, None, true);
    c.Release(before.stream);
    closing := c.CloseAll(v);
    after := c.Acquire(host, None, true, Some(0.0), true);
  }

  /**
   * The intended `close_all` on the same pool: the released stream is gone,
   * so the next acquisition opens a new one with the default handshake timeout.
   */
  method IntendedCloseAllThenAcquire(host: string) returns (before: Acquired, after: Acquired)
    ensures before.Granted? && after.Granted?
    ensures after.stream != before.stream && after.stream.id == 1
    ensures after.stream.handshakeTimeout == Some(60.0)
  {
    var c := new ConnectionController(Some(0.0));
    before := c.Acquire(host, None, true, None, true);
    c.Release(before.stream);
    var closing := c.CloseAllIntended();
    after := c.Acquire(host, None, true, Some(0.0), true);
  }

  /**
   * When opening the first stream fails, the permit is never given back and
   * None stays in the busy set, so every later acquisition waits.
   */
  method FailedConnectKeepsPermit(host: string) returns (first: Acquired, second: Acquired, busy: set<Option<Handle>>)
    ensures first == ConnectFailed
    ensures second == Blocked
    ensures busy == {None}
  {
    var c := new ConnectionController(None);
    first := c.Acquire(host, None, true, None, false);
    second := c.Acquire(host, None, true, None, true);
    busy := c.busy;
  }

  /**
   * While a freshly opened stream is lent out, the busy set holds None and the
   * deque is empty, so the generator yields nothing. `close_all` raises a
   * TypeError up to Python 3.11 and an AssertionError from 3.12 on, leaves busy
   * as {None}, and the controller is closed all the same.
   */
  method CloseAllWhileLentOut(host: string, v: Asyncio) returns (r: Outcome, busy: set<Option<Handle>>, closed: bool)
    ensures v.UpTo311? ==> r == Raised(TypeError)
    ensures v.From312? ==> r == Raised(AssertionError)
    ensures busy == {None} && closed
  {
    var c := new ConnectionController(None);
    var a := c.Acquire(host, None, false, None, true);
    r := c.CloseAll(v);
    busy, closed := c.busy, c.closed;
  }
}
