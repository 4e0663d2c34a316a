/** The AMQP channel pool: one connection, a set of named channels
    allocated on it, and the watchdog that tears the pool down when the
    connection drops and installs a fresh connection when redialing
    succeeds. Connection and channel objects are identities; what the
    AMQP library does with them is recorded as effects. */
module AmqpPool {
  import opened Common

  /** An `*amqp.Connection` and an `*amqp.Channel`, by identity. */
  datatype Conn = Conn(id: nat)
  datatype Handle = Handle(id: nat)

  /** A pool entry (`*channel`): its own identity and the AMQP channel it wraps. */
  datatype Chan = Chan(id: nat, handle: Handle)

  datatype Effect =
    | Opened(handle: Handle)
    | Signalled(channel: Chan, err: Option<Error>)
    | HandleClosed(handle: Handle)
    | ConnectionClosed(conn: Conn)

  /** Where the watchdog goroutine is: selecting on the wait signal and the
      connection's close notifications, retrying the dial, or returned. */
  datatype Phase = Watching | Redialing | Done

  const DeadError: string := "connection is dead"
  const ClosedError: string := "connection has been closed"
  const ConfirmPrefix: string := "unable to enable confirmation mode on channel: "

  /** The map with every entry that points at c removed. */
  function Without(m: map<string, Chan>, c: Chan): (r: map<string, Chan>)
    ensures forall n :: n in r <==> n in m && m[n] != c
    ensures forall n :: n in r ==> r[n] == m[n]
  {
    map n | n in m && m[n] != c :: m[n]
  }

  /** Removing a channel that no entry points at changes nothing, and
      removing one twice is removing it once. */
  lemma WithoutAbsent(m: map<string, Chan>, c: Chan)
    ensures (forall n :: n in m ==> m[n] != c) ==> Without(m, c) == m
    ensures Without(Without(m, c), c) == Without(m, c)
  {
    if forall n :: n in m ==> m[n] != c {
      assert Without(m, c).Keys == m.Keys;
    }
  }

  /** The error sent to every registered channel, in map order. */
  function Broadcast(order: seq<string>, m: map<string, Chan>, err: Option<Error>): seq<Effect>
    requires forall i :: 0 <= i < |order| ==> order[i] in m
  {
    seq(|order|, i requires 0 <= i < |order| => Signalled(m[order[i]], err))
  }

  /** No two names share a pool entry. */
  ghost predicate Injective(m: map<string, Chan>)
  {
    forall a, b :: a in m && b in m && a != b ==> m[a] != m[b]
  }

  /** On disconnect every registered channel receives the error exactly
      once, and nothing else is sent. */
  lemma BroadcastOnce(order: seq<string>, m: map<string, Chan>, err: Option<Error>)
    requires Enumerates(order, m.Keys) && Injective(m)
    ensures var es := Broadcast(order, m, err);
      && |es| == |m|
      && (forall i :: 0 <= i < |es| ==> es[i].Signalled? && es[i].err == err && es[i].channel in m.Values)
      && (forall n :: n in m ==> multiset(es)[Signalled(m[n], err)] == 1)
  {
    EnumerationLength(order, m.Keys);
    var es := Broadcast(order, m, err);
    forall n | n in m ensures multiset(es)[Signalled(m[n], err)] == 1 {
      var k :| 0 <= k < |order| && order[k] == n;
      assert forall i :: 0 <= i < |es| && es[i] == Signalled(m[n], err) ==> i == k;
      OccursOnce(es, k);
    }
  }

  /** An element found at exactly one index occurs once. */
  lemma {:induction false} OccursOnce<T>(s: seq<T>, k: nat)
    requires k < |s|
    requires forall i :: 0 <= i < |s| && s[i] == s[k] ==> i == k
    ensures multiset(s)[s[k]] == 1
  {
    var x := s[k];
    var pre, post := s[..k], s[k + 1..];
    assert s == pre + [x] + post;
    forall i | 0 <= i < |pre| ensures pre[i] != x {
      assert pre[i] == s[i];
    }
    forall i | 0 <= i < |post| ensures post[i] != x {
      assert post[i] == s[k + 1 + i];
    }
    assert multiset(pre)[x] == 0 && multiset(post)[x] == 0;
  }

  /** What Close's per-channel goroutines do: each channel gets a nil signal
      and its AMQP channel is closed. */
  function CloseEffects(names: seq<string>, m: map<string, Chan>): (es: seq<Effect>)
    requires forall i :: 0 <= i < |names| ==> names[i] in m
    ensures |es| == 2 * |names|
  {
    if names == [] then []
    else [Signalled(m[names[0]], None), HandleClosed(m[names[0]].handle)] + CloseEffects(names[1..], m)
  }

  /** e is one of the two calls that closing the i-th named channel makes. */
  ghost predicate ClosingOf(names: seq<string>, m: map<string, Chan>, i: int, e: Effect)
    requires forall i :: 0 <= i < |names| ==> names[i] in m
  {
    0 <= i < |names| && (e == Signalled(m[names[i]], None) || e == HandleClosed(m[names[i]].handle))
  }

  /** Close reaches every registered channel: each gets its nil signal and
      its AMQP channel closed, and every call made is one of those. */
  lemma {:induction false} CloseReachesAll(names: seq<string>, m: map<string, Chan>)
    requires forall i :: 0 <= i < |names| ==> names[i] in m
    ensures var es := CloseEffects(names, m);
      && (forall i :: 0 <= i < |names| ==>
            Signalled(m[names[i]], None) in es && HandleClosed(m[names[i]].handle) in es)
      && (forall e :: e in es ==> exists i :: ClosingOf(names, m, i, e))
  {
    if names != [] {
      var tail := names[1..];
      CloseReachesAll(tail, m);
      var es := CloseEffects(names, m);
      var rest := CloseEffects(tail, m);
      assert es == [Signalled(m[names[0]], None), HandleClosed(m[names[0]].handle)] + rest;
      forall i | 0 < i < |names|
        ensures Signalled(m[names[i]], None) in es && HandleClosed(m[names[i]].handle) in es
      {
        assert names[i] == tail[i - 1];
      }
      forall e | e in es ensures exists i :: ClosingOf(names, m, i, e) {
        if e in rest {
          var j :| ClosingOf(tail, m, j, e);
          assert names[j + 1] == tail[j];
          assert ClosingOf(names, m, j + 1, e);
        } else {
          assert ClosingOf(names, m, 0, e);
        }
      }
    }
  }

  class ChanPool {
    /** The live connection, absent while the server is dead. */
    var conn: Option<Conn>
    /** Channels by name, absent exactly when the connection is. */
    var channels: Option<map<string, Chan>>
    /** `wait` is closed: Close has been called. */
    var waitClosed: bool
    /** The `connected` signal: which one (each reconnect cycle makes a new
        one) and whether it has been closed. */
    var connectedEpoch: nat
    var connectedClosed: bool
    var phase: Phase
    /** Identities handed to pool entries are below nextId. */
    var nextId: nat
    var trace: seq<Effect>

    ghost predicate Valid()
      reads this
    {
      && (conn.None? <==> channels.None?)
      && (conn.Some? ==> connectedClosed)
      && (phase == Watching ==> conn.Some?)
      && (phase == Redialing <==> conn.None? && !connectedClosed)
      && (channels.Some? ==> Injective(channels.value))
      && (channels.Some? ==> forall n :: n in channels.value ==> channels.value[n].id < nextId)
    }

    constructor (c: Conn)
      ensures Valid()
      ensures conn == Some(c) && channels == Some(map[])
      ensures !waitClosed && connectedEpoch == 0 && connectedClosed && phase == Watching
      ensures nextId == 0 && trace == []
    {
      conn, channels := Some(c), Some(map[]);
      waitClosed, connectedEpoch, connectedClosed := false, 0, true;
      phase, nextId, trace := Watching, 0, [];
    }

    /** Dials once; a failed dial returns its error and no pool. Otherwise
        the pool has the connection, an empty channel map and the connected
        signal already closed, and its watchdog is running. */
    static method NewConn(dialed: Result<Conn>) returns (cp: ChanPool?, err: Option<Error>)
      ensures dialed.Err? ==> cp == null && err == Some(dialed.error)
      ensures dialed.Ok? ==> && cp != null && fresh(cp) && cp.Valid() && err == None
                             && cp.conn == Some(dialed.value) && cp.channels == Some(map[])
                             && cp.connectedClosed && !cp.waitClosed && cp.phase == Watching
                             && cp.trace == []
    {
      if dialed.Err? {
        return null, Some(dialed.error);
      }
      cp := new ChanPool(dialed.value);
      err := None;
    }

    /** Allocates the channel registered under name. While the connection is
        dead the call waits for the connected signal, and fails with "connection
        is dead" when the wait times out; nothing else can close the signal
        while the call waits in this model, so an open signal means a time-out.
        Then an absent connection fails with "connection has been closed"; a
        known name returns its entry; otherwise a new AMQP channel is opened
        (open), put in confirm mode (confirm) and registered under name. */
    method Channel(name: string, open: Result<Handle>, confirm: Option<Error>) returns (c: Option<Chan>, err: Option<Error>)
      requires Valid()
      modifies this`channels, this`nextId, this`trace
      ensures Valid()
      ensures c.Some? <==> err.None?
      ensures conn.None? && !connectedClosed ==> err == Some(Error(DeadError)) && unchanged(this)
      ensures conn.None? && connectedClosed ==> err == Some(Error(ClosedError)) && unchanged(this)
      ensures conn.Some? && name in old(channels).value ==>
        c == Some(old(channels).value[name]) && unchanged(this)
      ensures conn.Some? && name !in old(channels).value && open.Err? ==>
        err == Some(open.error) && unchanged(this)
      ensures conn.Some? && name !in old(channels).value && open.Ok? && confirm.Some? ==>
        && err == Some(Error(ConfirmPrefix + Message(confirm.value)))
        && channels == old(channels) && nextId == old(nextId) && trace == old(trace) + [Opened(open.value)]
      ensures conn.Some? && name !in old(channels).value && open.Ok? && confirm.None? ==>
        && c == Some(Chan(old(nextId), open.value))
        && channels == Some(old(channels).value[name := c.value])
        && (forall n :: n in old(channels).value ==> old(channels).value[n] != c.value)
        && nextId == old(nextId) + 1 && trace == old(trace) + [Opened(open.value)]
    {
      if conn.None? {
        if !connectedClosed {
          return None, Some(Error(DeadError));
        }
        return None, Some(Error(ClosedError));
      }
      var m := channels.value;
      if name in m {
        return Some(m[name]), None;
      }
      if open.Err? {
        return None, Some(open.error);
      }
      trace := trace + [Opened(open.value)];
      if confirm.Some? {
        return None, Some(Error(ConfirmPrefix + Message(confirm.value)));
      }
      var entry := Chan(nextId, open.value);
      channels := Some(m[name := entry]);
      nextId := nextId + 1;
      c, err := Some(entry), None;
    }

    /** Sends c a nil signal and closes its AMQP channel (both from a
        goroutine, recorded here in that order), removes every entry that
        points at c and returns err. */
    method CloseChan(c: Chan, err: Option<Error>) returns (r: Option<Error>)
      requires Valid()
      modifies this`channels, this`trace
      ensures Valid()
      ensures r == err
      ensures channels == if old(channels).None? then None else Some(Without(old(channels).value, c))
      ensures trace == old(trace) + [Signalled(c, None), HandleClosed(c.handle)]
    {
      trace := trace + [Signalled(c, None), HandleClosed(c.handle)];
      if channels.Some? {
        var m0 := channels.value;
        var m := m0;
        var left := m0.Keys;
        while left != {}
          invariant left <= m0.Keys
          invariant m.Keys <= m0.Keys
          invariant forall n :: n in m ==> m[n] == m0[n]
          invariant forall n :: n in m0 ==> (n in m <==> n in left || m0[n] != c)
          decreases left
        {
          var n :| n in left;
          if m0[n] == c {
            m := m - {n};
          }
          left := left - {n};
        }
        assert m == Without(m0, c);
        channels := Some(m);
      }
      r := err;
    }

    /** The watchdog receives a close notification (err; nil when the
        library closed the notification channel): a new connected signal is
        made, every registered channel is sent err in map order, and the
        connection and the channel map both become absent. A nil err stands
        for the nil `*amqp.Error` the library's closed notification channel
        yields; forwarded onto a `chan error` it arrives as a non-nil error
        value holding a nil pointer, which this model does not tell apart
        from closeChan's untyped nil. */
    method Disconnect(err: Option<Error>, order: seq<string>)
      requires Valid() && phase == Watching
      requires Enumerates(order, channels.value.Keys)
      modifies this`conn, this`channels, this`connectedEpoch, this`connectedClosed, this`phase, this`trace
      ensures Valid()
      ensures conn == None && channels == None && phase == Redialing
      ensures connectedEpoch == old(connectedEpoch) + 1 && !connectedClosed
      ensures trace == old(trace) + Broadcast(order, old(channels).value, err)
    {
      connectedEpoch, connectedClosed := connectedEpoch + 1, false;
      var m := channels.value;
      var sent, i := [], 0;
      while i < |order|
        invariant 0 <= i <= |order|
        invariant sent == Broadcast(order[..i], m, err)
      {
        assert Broadcast(order[..i + 1], m, err) == Broadcast(order[..i], m, err) + [Signalled(m[order[i]], err)];
        sent := sent + [Signalled(m[order[i]], err)];
        i := i + 1;
      }
      assert order[..i] == order;
      trace := trace + sent;
      conn, channels, phase := None, None, Redialing;
    }

    /** One reconnect attempt. A failed dial changes nothing (the backoff
        retries); a successful one installs the connection with an empty
        channel map and closes the connected signal. */
    method Redial(dialed: Result<Conn>) returns (err: Option<Error>)
      requires Valid() && phase == Redialing
      modifies this`conn, this`channels, this`connectedClosed, this`phase
      ensures Valid()
      ensures dialed.Err? ==> err == Some(dialed.error) && unchanged(this)
      ensures dialed.Ok? ==> && err == None && conn == Some(dialed.value) && channels == Some(map[])
                             && connectedClosed && phase == Watching
    {
      if dialed.Err? {
        return Some(dialed.error);
      }
      conn, channels := Some(dialed.value), Some(map[]);
      connectedClosed, phase := true, Watching;
      err := None;
    }

    /** The backoff gives up: the connected signal is closed with the
        connection still absent, and the watchdog returns. */
    method GiveUp()
      requires Valid() && phase == Redialing
      modifies this`connectedClosed, this`phase
      ensures Valid()
      ensures connectedClosed && phase == Done && conn == None && channels == None
    {
      connectedClosed, phase := true, Done;
    }

    /** The watchdog sees the wait signal closed and returns. */
    method WatchStop()
      requires Valid() && phase == Watching && waitClosed
      modifies this`phase
      ensures Valid()
      ensures phase == Done
    {
      phase := Done;
    }

    /** Close's fan-out: closeChan on every registered channel, in map
        order. Each call removes its own entry, so the map ends up empty.
        Only coverage of the map is needed here; Close passes the map's own
        enumeration. */
    method CloseChannels(order: seq<string>)
      requires Valid() && channels.Some?
      requires forall i :: 0 <= i < |order| ==> order[i] in channels.value
      requires forall n :: n in channels.value ==> n in order
      modifies this`channels, this`trace
      ensures Valid()
      ensures channels == Some(map[])
      ensures trace == old(trace) + CloseEffects(order, old(channels).value)
    {
      var m0 := channels.value;
      ghost var goal := trace + CloseEffects(order, m0);
      var i := 0;
      while i < |order|
        invariant 0 <= i <= |order|
        invariant Valid() && channels.Some? && channels.value.Keys <= m0.Keys
        invariant forall n :: n in channels.value ==> channels.value[n] == m0[n]
        invariant forall j :: 0 <= j < i ==> order[j] !in channels.value
        invariant goal == trace + CloseEffects(order[i..], m0)
      {
        assert order[i..][1..] == order[i + 1..];
        var closed := CloseChan(m0[order[i]], None);
        i := i + 1;
      }
      forall n | n in m0 ensures n !in channels.value {
        var j :| 0 <= j < |order| && order[j] == n;
      }
      assert channels.value == map[];
      assert order[i..] == [];
    }

    /** Closes the wait signal (a second Close panics), fails with
        "connection is dead" when the channel map is absent, and otherwise
        closes every registered channel as CloseChan does, leaving the map
        empty, then closes the connection (its result is connClose). */
    method Close(order: seq<string>, connClose: Option<Error>) returns (r: Option<Error>)
      requires Valid()
      requires channels.Some? ==> Enumerates(order, channels.value.Keys)
      modifies this`waitClosed, this`channels, this`trace
      ensures Valid()
      ensures old(waitClosed) ==> r.Some? && r.value.Panic? && unchanged(this)
      ensures !old(waitClosed) ==> waitClosed
      ensures !old(waitClosed) && old(channels).None? ==> r == Some(Error(DeadError)) && channels == None && trace == old(trace)
      ensures !old(waitClosed) && old(channels).Some? ==>
        && r == connClose && channels == Some(map[])
        && trace == old(trace) + CloseEffects(order, old(channels).value) + [ConnectionClosed(conn.value)]
    {
      if waitClosed {
        return Some(Panic("close of closed channel"));
      }
      waitClosed := true;
      if channels.None? {
        return Some(Error(DeadError));
      }
      CloseChannels(order);
      trace := trace + [ConnectionClosed(conn.value)];
      r := connClose;
    }
  }
}
