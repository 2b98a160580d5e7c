/** Shutdown, over every interleaving of handlers, shutdown callers and waiters. */
module ShutdownProperties {
  import opened Items
  import opened Lifecycle

  /** Where an accepted handler stands. Only the WebSocket handler owns a socket:
      it leaves the registry before it closes the socket, and is counted until after. */
  datatype Phase =
    | Accepted
    | Upgraded(socket: nat)
    | Serving(socket: nat)
    | TurnedAway(socket: nat)
    | Removed(socket: nat)
    | Leaving

  /** What `WaitForIdle` read under the lock, and whether shutdown had begun. */
  datatype Waiter = Waiter(idle: nat, active: int, late: bool)

  /** `closers` are the callers inside `BeginShutdown`: before the registry is
      sealed, or with the sockets they have yet to close. `swept` says that one has
      returned. `sockets` and `admitted` record history only. */
  datatype World = World(
    gate: Gate,
    connections: set<nat>,
    sealed: bool,
    closed: set<nat>,
    handlers: map<nat, Phase>,
    closers: map<nat, Option<set<nat>>>,
    waiters: map<nat, Waiter>,
    swept: bool,
    sockets: set<nat>,
    admitted: set<nat>)

  const INITIAL := World(QUIET, {}, false, {}, map[], map[], map[], false, {}, {})

  datatype Event =
    | Begin(handler: nat)
    | Upgrade(handler: nat, socket: nat)
    | Add(handler: nat)
    | Remove(handler: nat)
    | CloseOwn(handler: nat)
    | End(handler: nat)
    | Announce(closer: nat)
    | Seal(closer: nat)
    | CloseOne(closer: nat, socket: nat)
    | Return(closer: nat)
    | Wait(waiter: nat)

  predicate Enabled(w: World, event: Event) {
    match event
    case Begin(h) => h !in w.handlers
    case Upgrade(h, socket) => h in w.handlers && w.handlers[h].Accepted? && socket !in w.sockets
    case Add(h) => h in w.handlers && w.handlers[h].Upgraded?
    case Remove(h) => h in w.handlers && w.handlers[h].Serving?
    case CloseOwn(h) => h in w.handlers && (w.handlers[h].Removed? || w.handlers[h].TurnedAway?)
    case End(h) => h in w.handlers && (w.handlers[h].Accepted? || w.handlers[h].Leaving?)
    case Announce(c) => c !in w.closers
    case Seal(c) => c in w.closers && w.closers[c].None?
    case CloseOne(c, socket) => c in w.closers && w.closers[c].Some? && socket in w.closers[c].value
    case Return(c) => c in w.closers && w.closers[c] == Some({})
    case Wait(_) => true
  }

  function Step(w: World, event: Event): World
    requires Enabled(w, event) && w.gate.idle < |w.gate.closes|
  {
    match event
    case Begin(h) =>
      w.(gate := Begun(w.gate), handlers := if w.gate.shuttingDown then w.handlers else w.handlers[h := Accepted])
    case Upgrade(h, socket) =>
      w.(handlers := w.handlers[h := Upgraded(socket)], sockets := w.sockets + {socket})
    case Add(h) =>
      var socket := w.handlers[h].socket;
      if w.sealed then w.(handlers := w.handlers[h := TurnedAway(socket)])
      else w.(handlers := w.handlers[h := Serving(socket)],
              connections := w.connections + {socket}, admitted := w.admitted + {socket})
    case Remove(h) =>
      w.(handlers := w.handlers[h := Removed(w.handlers[h].socket)],
         connections := w.connections - {w.handlers[h].socket})
    case CloseOwn(h) =>
      w.(handlers := w.handlers[h := Leaving], closed := w.closed + {w.handlers[h].socket})
    case End(h) =>
      w.(gate := Ended(w.gate), handlers := w.handlers - {h})
    case Announce(c) =>
      w.(gate := w.gate.(shuttingDown := true), closers := w.closers[c := None])
    case Seal(c) =>
      w.(sealed := true, closers := w.closers[c := Some(w.connections)])
    case CloseOne(c, socket) =>
      w.(closed := w.closed + {socket}, closers := w.closers[c := Some(w.closers[c].value - {socket})])
    case Return(c) =>
      w.(closers := w.closers - {c}, swept := true)
    case Wait(id) =>
      w.(waiters := w.waiters[id := Waiter(w.gate.idle, w.gate.active, w.gate.shuttingDown)])
  }

  /** `WaitForIdle` may return without an error from here. */
  predicate MayReturn(w: World, waiter: Waiter) {
    waiter.active == 0 || (waiter.idle < |w.gate.closes| && w.gate.closes[waiter.idle] > 0)
  }

  predicate Owns(phase: Phase, socket: nat) {
    !phase.Accepted? && !phase.Leaving? && phase.socket == socket
  }

  ghost predicate Owned(w: World, socket: nat) {
    exists h :: h in w.handlers && Owns(w.handlers[h], socket)
  }

  ghost predicate Counted(w: World) {
    Sound(w.gate) && w.gate.active == |w.handlers|
  }

  /** After shutdown has begun no new channel is made and the count only falls. */
  ghost predicate LateWaitersAgree(w: World) {
    forall id :: id in w.waiters ==>
      var waiter := w.waiters[id];
      && waiter.idle < |w.gate.closes|
      && (waiter.late ==> w.gate.shuttingDown && waiter.idle == w.gate.idle && w.gate.active <= waiter.active)
      && (waiter.active > 0 || w.gate.closes[waiter.idle] > 0)
  }

  ghost predicate SocketsAccounted(w: World) {
    && w.admitted <= w.sockets
    && w.closed <= w.sockets
    && w.connections <= w.admitted
    && (forall socket :: socket in w.sockets ==> socket in w.closed || Owned(w, socket))
    && (forall h :: h in w.handlers && !w.handlers[h].Accepted? && !w.handlers[h].Leaving? ==>
          w.handlers[h].socket in w.sockets)
    && (forall socket :: socket in w.connections ==> exists h :: h in w.handlers && w.handlers[h] == Serving(socket))
  }

  ghost predicate ClosersCover(w: World) {
    && (forall c :: c in w.closers ==>
          && w.gate.shuttingDown
          && (w.closers[c].Some? ==>
                w.sealed && w.connections <= w.closed + w.closers[c].value && w.closers[c].value <= w.sockets))
    && (w.sealed ==> w.gate.shuttingDown)
    && (w.swept ==> w.sealed && w.connections <= w.closed)
  }

  ghost predicate Inv(w: World) {
    Counted(w) && LateWaitersAgree(w) && SocketsAccounted(w) && ClosersCover(w)
  }

  lemma StepKeepsCount(w: World, event: Event)
    requires Counted(w) && Enabled(w, event)
    ensures Counted(Step(w, event))
  {
    match event
    case Begin(h) => BeginKeepsCount(w, h);
    case End(h) => EndKeepsCount(w, h);
    case Upgrade(h, socket) => PhaseKeepsCount(w.handlers, h, Upgraded(socket));
    case Add(h) =>
      PhaseKeepsCount(w.handlers, h,
                      if w.sealed then TurnedAway(w.handlers[h].socket) else Serving(w.handlers[h].socket));
    case Remove(h) => PhaseKeepsCount(w.handlers, h, Removed(w.handlers[h].socket));
    case CloseOwn(h) => PhaseKeepsCount(w.handlers, h, Leaving);
    case _ =>
  }

  lemma BeginKeepsCount(w: World, h: nat)
    requires Counted(w) && h !in w.handlers
    ensures Counted(Step(w, Begin(h)))
  {
    BeginningAndEndingStaySound(w.gate);
    var more := w.handlers[h := Accepted];
    assert more.Keys == w.handlers.Keys + {h};
    assert |more| == |more.Keys| && |w.handlers| == |w.handlers.Keys|;
  }

  lemma EndKeepsCount(w: World, h: nat)
    requires Counted(w) && Enabled(w, End(h))
    ensures Counted(Step(w, End(h)))
  {
    assert (w.handlers - {h}).Keys == w.handlers.Keys - {h};
    assert h in w.handlers.Keys;
    BeginningAndEndingStaySound(w.gate);
  }

  lemma PhaseKeepsCount(handlers: map<nat, Phase>, h: nat, phase: Phase)
    requires h in handlers
    ensures |handlers[h := phase]| == |handlers|
  {
    assert handlers[h := phase].Keys == handlers.Keys;
  }

  lemma StepKeepsWaiters(w: World, event: Event)
    requires Counted(w) && LateWaitersAgree(w) && Enabled(w, event)
    ensures LateWaitersAgree(Step(w, event))
  {
  }

  lemma StepKeepsSockets(w: World, event: Event)
    requires Counted(w) && SocketsAccounted(w) && ClosersCover(w) && Enabled(w, event)
    ensures SocketsAccounted(Step(w, event))
  {
    var next := Step(w, event);
    forall socket | socket in next.sockets ensures socket in next.closed || Owned(next, socket) {
      if socket in w.sockets && Owned(w, socket) {
        var h :| h in w.handlers && Owns(w.handlers[h], socket);
        assert (h in next.handlers && Owns(next.handlers[h], socket)) || socket in next.closed;
      } else if socket !in w.sockets {
        assert Owns(next.handlers[event.handler], socket);
      }
    }
    forall socket | socket in next.connections
      ensures exists h :: h in next.handlers && next.handlers[h] == Serving(socket)
    {
      if socket in w.connections {
        var h :| h in w.handlers && w.handlers[h] == Serving(socket);
        assert h in next.handlers && next.handlers[h] == Serving(socket);
      } else {
        assert next.handlers[event.handler] == Serving(socket);
      }
    }
  }

  lemma StepKeepsClosers(w: World, event: Event)
    requires SocketsAccounted(w) && ClosersCover(w) && Enabled(w, event)
    requires w.gate.idle < |w.gate.closes|
    ensures ClosersCover(Step(w, event))
  {
  }

  lemma StepKeepsInv(w: World, event: Event)
    requires Inv(w) && Enabled(w, event)
    ensures Inv(Step(w, event))
  {
    StepKeepsCount(w, event);
    StepKeepsWaiters(w, event);
    StepKeepsSockets(w, event);
    StepKeepsClosers(w, event);
  }

  /** Runs, as the worlds passed through. Every interleaving of enabled events is one. */
  ghost predicate Follows(w: World, next: World) {
    exists event :: Enabled(w, event) && w.gate.idle < |w.gate.closes| && next == Step(w, event)
  }

  ghost predicate IsRun(run: seq<World>) {
    && |run| > 0
    && run[0] == INITIAL
    && forall i :: 0 <= i < |run| - 1 ==> Follows(run[i], run[i + 1])
  }

  lemma {:induction false} EveryRunKeepsInv(run: seq<World>, i: nat)
    requires IsRun(run) && i < |run|
    ensures Inv(run[i])
  {
    if i > 0 {
      EveryRunKeepsInv(run, i - 1);
      assert Follows(run[i - 1], run[i]);
      var event :| Enabled(run[i - 1], event) && run[i] == Step(run[i - 1], event);
      StepKeepsInv(run[i - 1], event);
    }
  }

  /** No channel is closed twice, and the current one is closed exactly while no
      handler runs. */
  lemma NoChannelIsClosedTwice(run: seq<World>, i: nat, channel: nat)
    requires IsRun(run) && i < |run| && channel < |run[i].gate.closes|
    ensures var w := run[i];
      && w.gate.closes[channel] <= 1
      && w.gate.idle < |w.gate.closes|
      && (w.gate.closes[w.gate.idle] == 1 <==> w.handlers == map[])
  {
    EveryRunKeepsInv(run, i);
    NoneIsEmpty(run[i].handlers);
  }

  lemma NoneIsEmpty(handlers: map<nat, Phase>)
    ensures |handlers| == 0 <==> handlers == map[]
  {
    if handlers != map[] {
      assert handlers.Keys != {};
    }
  }

  lemma StepStartsNoHandler(w: World, event: Event)
    requires Enabled(w, event) && w.gate.idle < |w.gate.closes| && w.gate.shuttingDown
    ensures Step(w, event).gate.shuttingDown
    ensures Step(w, event).handlers.Keys <= w.handlers.Keys
  {
  }

  lemma FollowingStartsNoHandler(w: World, next: World)
    requires Follows(w, next) && w.gate.shuttingDown
    ensures next.gate.shuttingDown && next.handlers.Keys <= w.handlers.Keys
  {
    var event :| Enabled(w, event) && w.gate.idle < |w.gate.closes| && next == Step(w, event);
    StepStartsNoHandler(w, event);
  }

  /** Once shutdown has begun no handler starts, so an empty house stays empty. */
  lemma {:induction false} NoHandlerStartsAfterShutdown(run: seq<World>, i: nat, j: nat)
    requires IsRun(run) && i <= j < |run|
    requires run[i].gate.shuttingDown
    ensures run[j].gate.shuttingDown && run[j].handlers.Keys <= run[i].handlers.Keys
    decreases j
  {
    if i < j {
      NoHandlerStartsAfterShutdown(run, i, j - 1);
      assert Follows(run[j - 1], run[j]);
      FollowingStartsNoHandler(run[j - 1], run[j]);
    }
  }

  /** A waiter that looked after shutdown had begun and returns without an error
      at `i` finds every handler ended, there and ever after, and every socket the
      service ever upgraded closed. */
  lemma IdleMeansDrained(run: seq<World>, i: nat, j: nat, id: nat)
    requires IsRun(run) && i <= j < |run|
    requires id in run[i].waiters && run[i].waiters[id].late && MayReturn(run[i], run[i].waiters[id])
    ensures run[j].handlers == map[]
    ensures run[j].sockets <= run[j].closed
    ensures run[j].admitted <= run[j].closed
  {
    EveryRunKeepsInv(run, i);
    EveryRunKeepsInv(run, j);
    NoHandlerStartsAfterShutdown(run, i, j);
    NoneIsEmpty(run[i].handlers);
    assert run[j].handlers.Keys == {};
    assert forall socket :: socket in run[j].sockets ==> socket in run[j].closed || Owned(run[j], socket);
  }

  /** When a call of `BeginShutdown` has returned, every socket ever admitted has
      been closed or has left the registry, and stays so. */
  lemma ShutdownReachesEverySocket(run: seq<World>, i: nat, socket: nat)
    requires IsRun(run) && i < |run| && run[i].swept
    requires socket in run[i].admitted
    ensures socket in run[i].closed || socket !in run[i].connections
    ensures run[i].sealed && run[i].connections <= run[i].closed
  {
    EveryRunKeepsInv(run, i);
  }

  /** A waiter never sleeps through: once the channel it holds is no longer the
      current one, or no handler runs, it may return. */
  lemma NoWaiterIsForgotten(run: seq<World>, i: nat, id: nat)
    requires IsRun(run) && i < |run| && id in run[i].waiters
    requires run[i].waiters[id].idle != run[i].gate.idle || run[i].handlers == map[]
    ensures MayReturn(run[i], run[i].waiters[id])
  {
    EveryRunKeepsInv(run, i);
    NoneIsEmpty(run[i].handlers);
  }
}
