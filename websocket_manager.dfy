/**
 * The connection registry every live-sale update goes through: `ConnectionManager` keeps the
 * accepted dashboard sockets in a list, appends on connect, removes one occurrence on
 * disconnect, and on broadcast tries one `send_json` per socket in list order, skipping (but
 * not removing) a socket whose send raises.
 *
 * A socket is an opaque `Handle`; whether its send raises is given by the set `broken` of
 * sockets whose transport is gone. Every accept, disconnect call and send attempt is recorded
 * in the ghost `log`, so the properties of a sequence of operations can be stated.
 */
module WebsocketManager {
  /**
   * One WebSocket connection. Starlette's `WebSocket` is a `Mapping`, so `in` and
   * `list.remove` compare connection scopes; distinct connections have distinct scopes, so
   * equal handles mean the same connection.
   */
  type Handle = nat

  /** The dict handed to `send_json`: {"type": kind, "message": text}. */
  datatype Message = Message(kind: string, text: string)

  datatype Event =
    | Accepted(ws: Handle)
    | DisconnectCalled(ws: Handle)
    | Sent(ws: Handle, message: Message, delivered: bool)

  /** `if x in s: s.remove(x)`: the first occurrence of `x` goes, the rest keep their order. */
  function RemoveFirst(s: seq<Handle>, x: Handle): (r: seq<Handle>)
    ensures |r| == if x in s then |s| - 1 else |s|
    ensures forall y :: y in r ==> y in s
    ensures forall y :: y != x && y in s ==> y in r
  {
    if s == [] then []
    else if s[0] == x then s[1..]
    else [s[0]] + RemoveFirst(s[1..], x)
  }

  /** The send attempts one broadcast makes: one per registered socket, in list order. */
  function Attempts(conns: seq<Handle>, message: Message, broken: set<Handle>): (r: seq<Event>)
    ensures |r| == |conns|
    ensures forall i :: 0 <= i < |conns| ==> r[i] == Sent(conns[i], message, conns[i] !in broken)
  {
    if conns == [] then []
    else
      var last := conns[|conns| - 1];
      Attempts(conns[..|conns| - 1], message, broken) + [Sent(last, message, last !in broken)]
  }

  /** The sockets that actually received `message`, in the order they received it. */
  function ReceiversOf(log: seq<Event>, message: Message): seq<Handle> {
    if log == [] then []
    else
      var e := log[|log| - 1];
      ReceiversOf(log[..|log| - 1], message)
        + (if e.Sent? && e.message == message && e.delivered then [e.ws] else [])
  }

  /** The registered sockets whose transport still works, in list order. */
  function Healthy(conns: seq<Handle>, broken: set<Handle>): seq<Handle> {
    if conns == [] then []
    else
      var last := conns[|conns| - 1];
      Healthy(conns[..|conns| - 1], broken) + (if last in broken then [] else [last])
  }

  /**
   * Failure isolation: a broadcast reaches exactly the registered sockets whose send does not
   * raise, each once and in list order; a broken socket earlier in the list stops nothing.
   */
  lemma {:induction false} BroadcastReachesHealthy(conns: seq<Handle>, message: Message, broken: set<Handle>)
    ensures ReceiversOf(Attempts(conns, message, broken), message) == Healthy(conns, broken)
  {
    if conns != [] {
      var a := Attempts(conns, message, broken);
      assert a[..|a| - 1] == Attempts(conns[..|conns| - 1], message, broken);
      BroadcastReachesHealthy(conns[..|conns| - 1], message, broken);
    }
  }

  lemma {:induction false} HealthyWhenNoneBroken(conns: seq<Handle>)
    ensures Healthy(conns, {}) == conns
  {
    if conns != [] {
      HealthyWhenNoneBroken(conns[..|conns| - 1]);
    }
  }

  /** Fan-out: with every transport up, one broadcast delivers to each registered socket once. */
  lemma BroadcastReachesAll(conns: seq<Handle>, message: Message)
    ensures ReceiversOf(Attempts(conns, message, {}), message) == conns
  {
    BroadcastReachesHealthy(conns, message, {});
    HealthyWhenNoneBroken(conns);
  }

  /** Removing the first occurrence is slicing it out at the first index where it appears. */
  lemma {:induction false} RemoveFirstAt(s: seq<Handle>, x: Handle, i: nat)
    requires i < |s| && s[i] == x
    requires forall j :: 0 <= j < i ==> s[j] != x
    ensures RemoveFirst(s, x) == s[..i] + s[i + 1..]
  {
    if i > 0 {
      RemoveFirstAt(s[1..], x, i - 1);
      assert s[1..][..i - 1] == s[1..i];
      assert s[1..][i..] == s[i + 1..];
      assert [s[0]] + s[1..i] == s[..i];
    }
  }

  /** `disconnect` of a socket that is not registered changes nothing. */
  lemma {:induction false} RemoveFirstAbsent(s: seq<Handle>, x: Handle)
    requires x !in s
    ensures RemoveFirst(s, x) == s
  {
    if s != [] {
      assert x !in s[1..];
      RemoveFirstAbsent(s[1..], x);
    }
  }

  /** `disconnect` removes exactly one occurrence of a registered socket and nothing else. */
  lemma {:induction false} RemoveFirstCount(s: seq<Handle>, x: Handle)
    ensures multiset(RemoveFirst(s, x)) == multiset(s) - multiset{x}
    ensures x in s ==> |RemoveFirst(s, x)| == |s| - 1
    ensures x !in s ==> |RemoveFirst(s, x)| == |s|
  {
    if s != [] {
      assert s == [s[0]] + s[1..];
      RemoveFirstCount(s[1..], x);
    }
  }

  /** Calling `disconnect` twice is the same as once, for a socket registered at most once. */
  lemma DisconnectIdempotent(s: seq<Handle>, x: Handle)
    requires multiset(s)[x] <= 1
    ensures RemoveFirst(RemoveFirst(s, x), x) == RemoveFirst(s, x)
  {
    RemoveFirstCount(s, x);
    assert x !in RemoveFirst(s, x) by {
      assert multiset(RemoveFirst(s, x))[x] == 0;
    }
    RemoveFirstAbsent(RemoveFirst(s, x), x);
  }

  /** A connect followed by its disconnect leaves the registry as it was. */
  lemma DisconnectUndoesConnect(s: seq<Handle>, x: Handle)
    requires x !in s
    ensures RemoveFirst(s + [x], x) == s
  {
    RemoveFirstAt(s + [x], x, |s|);
    assert (s + [x])[..|s|] == s;
  }

  /** The linear search `list.remove` performs: the first index holding `x`. */
  method IndexOf(s: seq<Handle>, x: Handle) returns (i: nat)
    requires x in s
    ensures i < |s| && s[i] == x
    ensures forall j :: 0 <= j < i ==> s[j] != x
  {
    i := 0;
    while s[i] != x
      invariant i < |s|
      invariant x in s[i..]
      invariant forall j :: 0 <= j < i ==> s[j] != x
      decreases |s| - i
    {
      assert s[i..] == [s[i]] + s[i + 1..];
      i := i + 1;
    }
  }

  class ConnectionManager {
    /** `self.active_connections` */
    var activeConnections: seq<Handle>
    /** Every accept, disconnect call and send attempt, in the order they happened. */
    ghost var log: seq<Event>

    /** A fresh manager tracks no socket. */
    constructor ()
      ensures activeConnections == [] && log == []
    {
      activeConnections := [];
      log := [];
    }

    /**
     * `await websocket.accept()` then append. When accept raises (`acceptOk` false) the
     * exception leaves `connect` before the append, so the registry is unchanged.
     */
    method Connect(ws: Handle, acceptOk: bool) returns (accepted: bool)
      modifies this
      ensures accepted == acceptOk
      ensures accepted ==> activeConnections == old(activeConnections) + [ws]
      ensures accepted ==> log == old(log) + [Accepted(ws)]
      ensures !accepted ==> activeConnections == old(activeConnections) && log == old(log)
    {
      accepted := acceptOk;
      if accepted {
        activeConnections := activeConnections + [ws];
        log := log + [Accepted(ws)];
      }
    }

    /** Removes the first occurrence of `ws` if registered; never raises. */
    method Disconnect(ws: Handle)
      modifies this
      ensures activeConnections == RemoveFirst(old(activeConnections), ws)
      ensures log == old(log) + [DisconnectCalled(ws)]
    {
      if ws in activeConnections {
        var i := IndexOf(activeConnections, ws);
        RemoveFirstAt(activeConnections, ws, i);
        activeConnections := activeConnections[..i] + activeConnections[i + 1..];
      } else {
        RemoveFirstAbsent(activeConnections, ws);
      }
      log := log + [DisconnectCalled(ws)];
    }

    /**
     * One `send_json(message)` attempt per registered socket, in list order; a send that
     * raises is skipped. The registry itself is never changed, so a broken socket stays.
     */
    method Broadcast(message: Message, broken: set<Handle>)
      modifies this`log
      ensures activeConnections == old(activeConnections)
      ensures log == old(log) + Attempts(activeConnections, message, broken)
    {
      var i := 0;
      while i < |activeConnections|
        invariant 0 <= i <= |activeConnections|
        invariant log == old(log) + Attempts(activeConnections[..i], message, broken)
      {
        var connection := activeConnections[i];
        var sent := connection !in broken;
        assert activeConnections[..i + 1][..i] == activeConnections[..i];
        log := log + [Sent(connection, message, sent)];
        i := i + 1;
      }
      assert activeConnections[..i] == activeConnections;
    }
  }
}
