/** Whole runs of a session against upstream servers that remember their own transcripts. */
module SessionRuns {
  import opened Items
  import opened ItemMerge
  import opened Requests
  import opened Conversation
  import opened Sessions

  /** What the server behind one socket remembers: the last response it completed, and the transcript
      behind it, both with repeated items merged away and with everything simply appended. */
  datatype Socket = Socket(last: string, merged: seq<Item>, appended: seq<Item>)

  const NEW_SOCKET := Socket("", [], [])

  /** A body that was sent, with the state it was sent from and the server that received it.
      Generation 0 is the HTTP route, whose server remembers nothing. */
  datatype Delivery = Delivery(generation: nat, body: Body, socket: Socket, before: State, plan: Plan, pipe: Pipeline)

  datatype Commit = Commit(message: Body, plan: Plan, terminal: Terminal, generation: nat)

  datatype Run = Run(session: Session, sockets: map<nat, Socket>, deliveries: seq<Delivery>, commits: seq<Commit>)

  const START := Run(OPENED, map[], [], [])

  function ItemsOf(body: Body): seq<Item> {
    if body.input.Some? && body.input.value.ItemArray? then body.input.value.items else []
  }

  /** The conversation a merging server evaluates: none if it does not know the named response. */
  function Evaluated(socket: Socket, body: Body): Option<seq<Item>> {
    if body.previous.None? then Some(ItemsOf(body))
    else if JsonString(body.previous) != "" && JsonString(body.previous) == socket.last then
      Some(Merge(socket.merged, ItemsOf(body)))
    else None
  }

  /** The same for a server that appends the new input to what it holds. */
  function EvaluatedByAppending(socket: Socket, body: Body): seq<Item> {
    if body.previous.None? then ItemsOf(body) else socket.appended + ItemsOf(body)
  }

  function Answer(socket: Socket, body: Body, response: Terminal): Socket {
    var evaluated := Evaluated(socket, body);
    Socket(response.id,
           Merge(if evaluated.Some? then evaluated.value else [], response.output),
           EvaluatedByAppending(socket, body) + response.output)
  }

  /* ---- one turn ---- */

  /** The plan of a turn that gets as far as looking for an upstream. */
  function Planned(cfg: Config, s: Session, t: Turn): Option<Plan> {
    if s.closed || !t.authorization.Granted? || t.account.None? then None
    else match PlanTurn(s.conversation, cfg.limits, t.message, t.pipe)
      case Ok(plan) => Some(plan)
      case Err(_) => None
  }

  function Ready(cfg: Config, s: Session, t: Turn): Session {
    if t.account.None? then s else EnsureUpstream(cfg, s, t, t.account.value)
  }

  function OpenSocket(sockets: map<nat, Socket>, s: Session, ready: Session): map<nat, Socket> {
    if ready.nextGeneration > s.nextGeneration then sockets[ready.nextGeneration := NEW_SOCKET] else sockets
  }

  /** The body of a planned turn, if one is sent. */
  function Sent(cfg: Config, ready: Session, sockets: map<nat, Socket>, plan: Plan, pipe: Pipeline): Option<Delivery> {
    if ready.upstream.Some? then
      var generation := ready.upstream.value.generation;
      Some(Delivery(generation, ChosenBody(ready.conversation, plan, generation, false),
                    if generation in sockets then sockets[generation] else NEW_SOCKET,
                    ready.conversation, plan, pipe))
    else if cfg.httpFallback then
      match HttpBody(ChosenBody(ready.conversation, plan, 0, true), pipe)
      case Ok(body) => Some(Delivery(0, body, NEW_SOCKET, ready.conversation, plan, pipe))
      case Err(_) => None
    else None
  }

  /** The response a delivered turn completes with. */
  function Response(d: Delivery, t: Turn): Option<Terminal> {
    if t.ending.Finished? && (if d.generation == 0 then t.answered else t.written) then t.ending.terminal else None
  }

  function Step(cfg: Config, r: Run, t: Turn): Run {
    var planned := Planned(cfg, r.session, t);
    var after := HandleTurn(cfg, r.session, t);
    if planned.None? then r.(session := after)
    else
      var ready := Ready(cfg, r.session, t);
      var sockets := OpenSocket(r.sockets, r.session, ready);
      var sent := Sent(cfg, ready, sockets, planned.value, t.pipe);
      if sent.None? then r.(session := after, sockets := sockets)
      else Deliver(cfg, r, after, sockets, sent.value, t)
  }

  /** The server answers; the gateway may still refuse to commit what it answers. */
  function Deliver(cfg: Config, r: Run, after: Session, sockets: map<nat, Socket>, d: Delivery, t: Turn): Run {
    var response := Response(d, t);
    Run(after,
        if response.Some? && d.generation != 0
        then sockets[d.generation := Answer(d.socket, d.body, response.value)] else sockets,
        r.deliveries + [d],
        if response.Some? && t.message.Some?
           && CommitTurn(d.before, cfg.limits, d.plan, response, d.generation).Ok?
        then r.commits + [Commit(t.message.value, d.plan, response.value, d.generation)] else r.commits)
  }

  function RunOf(cfg: Config, turns: seq<Turn>): Run {
    if turns == [] then START else Step(cfg, RunOf(cfg, turns[..|turns| - 1]), turns[|turns| - 1])
  }
}
