/** Counting running handlers, and the registry of admitted client sockets. */
module Lifecycle {
  import opened Items

  /** The counters of the service. Channels are numbered in the order they are
      made; `closes[c]` counts how often channel `c` has been closed, and a second
      close of the same channel would be a run-time panic. */
  datatype Gate = Gate(active: int, shuttingDown: bool, idle: nat, closes: seq<nat>)

  ghost predicate Sound(g: Gate) {
    && g.active >= 0
    && g.idle < |g.closes|
    && (forall c :: 0 <= c < |g.closes| ==> g.closes[c] == if c == g.idle && g.active > 0 then 0 else 1)
  }

  /** A new service starts with a channel that is already closed. */
  const QUIET := Gate(0, false, 0, [1])

  function Begun(g: Gate): Gate {
    if g.shuttingDown then g
    else if g.active == 0 then g.(active := 1, idle := |g.closes|, closes := g.closes + [0])
    else g.(active := g.active + 1)
  }

  function Ended(g: Gate): Gate
    requires g.idle < |g.closes|
  {
    if g.active == 1 then g.(active := 0, closes := g.closes[g.idle := g.closes[g.idle] + 1])
    else g.(active := g.active - 1)
  }

  /** The running handlers are counted exactly, and the current channel is closed
      exactly while there are none; no channel is ever closed twice. */
  lemma BeginningAndEndingStaySound(g: Gate)
    requires Sound(g)
    ensures Sound(Begun(g))
    ensures g.active > 0 ==> Sound(Ended(g))
  {
  }

  class ActivityGate {
    var activeRequests: int
    var shuttingDown: bool
    var idle: nat
    var closes: seq<nat>

    ghost function View(): Gate
      reads this
    {
      Gate(activeRequests, shuttingDown, idle, closes)
    }

    constructor ()
      ensures View() == QUIET && Sound(View())
    {
      activeRequests, shuttingDown, idle, closes := 0, false, 0, [1];
    }

    method BeginRequest() returns (accepted: bool)
      requires Sound(View())
      modifies this
      ensures Sound(View())
      ensures accepted == !old(shuttingDown)
      ensures View() == Begun(old(View()))
    {
      if shuttingDown {
        return false;
      }
      if activeRequests == 0 {
        idle := |closes|;
        closes := closes + [0];
      }
      activeRequests := activeRequests + 1;
      return true;
    }

    /** Deferred by every accepted handler, so at least one is counted. */
    method EndRequest()
      requires Sound(View()) && activeRequests > 0
      modifies this
      ensures Sound(View())
      ensures View() == Ended(old(View()))
      ensures forall c :: 0 <= c < |closes| ==> closes[c] <= 1
    {
      activeRequests := activeRequests - 1;
      if activeRequests == 0 {
        assert closes[idle] == 0;
        closes := closes[idle := closes[idle] + 1];
      }
    }

    method StopAccepting()
      requires Sound(View())
      modifies this
      ensures Sound(View())
      ensures View() == old(View()).(shuttingDown := true)
    {
      shuttingDown := true;
    }
  }

  class SocketRegistry {
    var connections: set<nat>
    var closed: bool

    constructor ()
      ensures connections == {} && !closed
    {
      connections, closed := {}, false;
    }

    method Add(connection: Option<nat>) returns (admitted: bool)
      modifies this
      ensures admitted == (connection.Some? && !old(closed))
      ensures connections == if admitted then old(connections) + {connection.value} else old(connections)
      ensures closed == old(closed)
    {
      if connection == None || closed {
        return false;
      }
      connections := connections + {connection.value};
      return true;
    }

    method Remove(connection: nat)
      modifies this
      ensures connections == old(connections) - {connection} && closed == old(closed)
    {
      connections := connections - {connection};
    }

    /** The part of `closeAll` under the lock: every admitted socket is listed once,
        in no particular order, to be closed after the lock is given up. */
    method Seal() returns (listed: seq<nat>)
      modifies this
      ensures closed && connections == old(connections)
      ensures multiset(listed) == multiset(connections)
    {
      closed := true;
      listed := [];
      var left := connections;
      while left != {}
        invariant left <= connections == old(connections) && closed
        invariant multiset(listed) + multiset(left) == multiset(connections)
      {
        var connection :| connection in left;
        listed := listed + [connection];
        left := left - {connection};
      }
    }
  }
}
