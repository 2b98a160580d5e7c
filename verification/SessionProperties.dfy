/** Which socket each body goes to, which body that is, and how a turn leaves the session, over every run. */
module SessionProperties {
  import opened Items
  import opened ItemMerge
  import opened Requests
  import opened Conversation
  import opened Sessions
  import opened SessionRuns
  import opened TurnProperties
  import opened PlanProperties
  import opened RunProperties
  import opened CommitProperties

  /* ---- the socket of one turn ---- */

  /** A socket of the turn's own account that is still alive. */
  ghost predicate HasLiveSocket(s: Session, t: Turn) {
    s.upstream.Some? && t.account == Some(s.upstream.value.account) && t.alive
  }

  /** The turn may dial, and is connected. */
  ghost predicate Dials(cfg: Config, s: Session, t: Turn) {
    t.dial.Connected? && !(cfg.httpFallback && t.now < s.retryAt)
  }

  /** A live socket of the account is used again. Any other is given up, and one is dialled in its place unless the
      fallback is on and a refused dial is less than twenty seconds old. */
  lemma SocketOfATurn(cfg: Config, s: Session, t: Turn)
    requires t.account.Some?
    ensures var ready := Ready(cfg, s, t);
      && ready.conversation == s.conversation && ready.closed == s.closed
      && (HasLiveSocket(s, t) ==> ready == s)
      && (!HasLiveSocket(s, t) && Dials(cfg, s, t) ==>
            && ready.upstream == Some(Upstream(ready.nextGeneration, t.account.value))
            && ready.nextGeneration == s.nextGeneration + 1 && ready.retryAt == 0)
      && (!HasLiveSocket(s, t) && !Dials(cfg, s, t) ==>
            && ready.upstream == None && ready.nextGeneration == s.nextGeneration
            && ready.retryAt ==
                 if t.dial.Refused? && !(cfg.httpFallback && t.now < s.retryAt) then t.now + 20 else s.retryAt)
  {
  }

  /* ---- how a turn leaves the session ---- */

  /** The turn ends in a response that can be committed: with an id, and a history that fits. */
  ghost predicate Commits(cfg: Config, s: State, plan: Plan, ending: Ending) {
    && ending.Finished? && ending.terminal.Some? && ending.terminal.value.id != ""
    && Replayable(cfg.limits, plan.replay.(input := Some(ItemArray(NewHistory(s, plan, ending.terminal.value.output)))))
  }

  /** Over a socket the session ends when the body could not be written, the upstream broke off, the client went or
      the response could not be committed; the socket survives a finished turn and a client that went, nothing
      else; and exactly a written turn with such a response is committed, under the socket's number. */
  lemma SocketTurnEnds(cfg: Config, s: Session, t: Turn, plan: Plan)
    requires Planned(cfg, s, t) == Some(plan) && Ready(cfg, s, t).upstream.Some?
    ensures var ready, after := Ready(cfg, s, t), HandleTurn(cfg, s, t);
      var commits := t.written && Commits(cfg, s.conversation, plan, t.ending);
      && (after.closed <==>
            !t.written || t.ending.Disconnected? || t.ending.ClientGone? || (t.ending.Finished? && !commits))
      && after.upstream == (if t.written && (t.ending.Finished? || t.ending.ClientGone?) then ready.upstream else None)
      && after.conversation ==
           (if commits then Committed(s.conversation, plan, t.ending.terminal.value, ready.upstream.value.generation)
            else s.conversation)
      && after.nextGeneration == ready.nextGeneration && after.retryAt == ready.retryAt
  {
    SocketOfATurn(cfg, s, t);
  }

  /** Over HTTP the session ends only with the client, and exactly an answered turn with such a response is
      committed, under number 0. Without a fallback nothing happens. */
  lemma HttpTurnEnds(cfg: Config, s: Session, t: Turn, plan: Plan)
    requires Planned(cfg, s, t) == Some(plan) && Ready(cfg, s, t).upstream.None?
    ensures var ready, after := Ready(cfg, s, t), HandleTurn(cfg, s, t);
      var answered := cfg.httpFallback && HttpBody(plan.replay, t.pipe).Ok? && t.answered;
      && (after.closed <==> answered && t.ending.ClientGone?)
      && after.upstream == None
      && after.conversation ==
           (if answered && Commits(cfg, s.conversation, plan, t.ending)
            then Committed(s.conversation, plan, t.ending.terminal.value, 0) else s.conversation)
      && after.nextGeneration == ready.nextGeneration && after.retryAt == ready.retryAt
  {
    SocketOfATurn(cfg, s, t);
    assert ChosenBody(s.conversation, plan, 0, true) == plan.replay;
  }

  /** A turn without a plan: a revoked key ends the session, a missing account gives up the socket, and neither a
      missing database nor a message that is refused changes anything. */
  lemma UnplannedTurnEnds(cfg: Config, s: Session, t: Turn)
    requires Planned(cfg, s, t).None?
    ensures HandleTurn(cfg, s, t) ==
      if s.closed || t.authorization.StoreDown? then s
      else if t.authorization.Revoked? then s.(closed := true)
      else if t.account.None? then s.(upstream := None)
      else s
  {
  }

  /* ---- runs ---- */

  /** Turn `i` sent this body. */
  ghost predicate DeliversIn(cfg: Config, turns: seq<Turn>, i: nat, d: Delivery) {
    i < |turns| && RunOf(cfg, turns[..i + 1]).deliveries == RunOf(cfg, turns[..i]).deliveries + [d]
  }

  /** Turn `j` opened the socket with this number. */
  ghost predicate OpenedBy(cfg: Config, turns: seq<Turn>, generation: nat, j: nat) {
    && j < |turns|
    && generation in RunOf(cfg, turns[..j + 1]).sockets && generation !in RunOf(cfg, turns[..j]).sockets
  }

  lemma SocketIsKeptOrOpened(cfg: Config, r: Run, t: Turn)
    requires Inv(r) && Step(cfg, r, t).session.upstream.Some?
    ensures var upstream := Step(cfg, r, t).session.upstream;
      || upstream == r.session.upstream
      || (upstream.value.generation !in r.sockets && t.account == Some(upstream.value.account))
  {
    StepNumbersUpward(cfg, r, t);
    if Planned(cfg, r.session, t).Some? {
      var plan := Planned(cfg, r.session, t).value;
      SocketOfATurn(cfg, r.session, t);
      SessionAfterStep(cfg, r, t);
      if Ready(cfg, r.session, t).upstream.Some? {
        SocketTurnEnds(cfg, r.session, t, plan);
      } else {
        HttpTurnEnds(cfg, r.session, t, plan);
      }
    } else {
      UnplannedTurnEnds(cfg, r.session, t);
    }
  }

  lemma SessionAfterStep(cfg: Config, r: Run, t: Turn)
    ensures Step(cfg, r, t).session == HandleTurn(cfg, r.session, t)
  {
  }

  lemma NewSocketIsOpened(cfg: Config, turns: seq<Turn>, i: nat)
    requires i < |turns| && RunOf(cfg, turns[..i + 1]).session.upstream.Some?
    requires RunOf(cfg, turns[..i + 1]).session.upstream != RunOf(cfg, turns[..i]).session.upstream
    ensures var upstream := RunOf(cfg, turns[..i + 1]).session.upstream.value;
      OpenedBy(cfg, turns, upstream.generation, i) && turns[i].account == Some(upstream.account)
  {
    EveryRunKeepsInv(cfg, turns[..i]);
    EveryRunKeepsInv(cfg, turns[..i + 1]);
    RunOfOneMore(cfg, turns, i);
    SocketIsKeptOrOpened(cfg, RunOf(cfg, turns[..i]), turns[i]);
  }

  /** A session's socket was opened by a turn of the account it is kept for. */
  lemma {:induction false} SocketHasItsAccount(cfg: Config, turns: seq<Turn>, i: nat) returns (j: nat)
    requires i <= |turns| && RunOf(cfg, turns[..i]).session.upstream.Some?
    ensures var upstream := RunOf(cfg, turns[..i]).session.upstream.value;
      j < i && OpenedBy(cfg, turns, upstream.generation, j) && turns[j].account == Some(upstream.account)
    decreases i
  {
    if i > 0 {
      j := i - 1;
      if RunOf(cfg, turns[..i]).session.upstream == RunOf(cfg, turns[..j]).session.upstream {
        j := SocketHasItsAccount(cfg, turns, i - 1);
      } else {
        NewSocketIsOpened(cfg, turns, j);
      }
    }
  }

  /** How a turn that sent a body came to its socket. */
  lemma DeliveredOver(cfg: Config, r: Run, t: Turn, d: Delivery)
    requires Inv(r) && Step(cfg, r, t).deliveries == r.deliveries + [d]
    ensures Planned(cfg, r.session, t) == Some(d.plan) && d.before == r.session.conversation && d.pipe == t.pipe
    ensures var ready := Ready(cfg, r.session, t);
      && (d.generation == 0 <==> ready.upstream.None?)
      && (ready.upstream.Some? ==>
            && d.generation == ready.upstream.value.generation
            && d.generation in Step(cfg, r, t).sockets
            && d.body == ChosenBody(r.session.conversation, d.plan, d.generation, false))
  {
    var ready, sockets, sent := StepDeliversOrIdles(cfg, r, t);
    assert Step(cfg, r, t).deliveries[|r.deliveries|] == d;
    assert sent.Some? && sent.value == d;
    StepPlans(cfg, r, t, d);
  }

  lemma StepPlans(cfg: Config, r: Run, t: Turn, d: Delivery)
    requires Step(cfg, r, t).deliveries == r.deliveries + [d]
    ensures Planned(cfg, r.session, t) == Some(d.plan)
    ensures var ready := Ready(cfg, r.session, t);
      Sent(cfg, ready, OpenSocket(r.sockets, r.session, ready), d.plan, t.pipe) == Some(d)
  {
    assert Step(cfg, r, t).deliveries[|r.deliveries|] == d;
  }

  /** In every run, a body that is sent over a socket goes to one that was opened for the account of its own turn,
      by that turn or, if the socket was then still alive, by an earlier one. */
  lemma EachBodyGoesToItsAccount(cfg: Config, turns: seq<Turn>, i: nat, d: Delivery) returns (j: nat)
    requires DeliversIn(cfg, turns, i, d) && d.generation != 0
    ensures j <= i && OpenedBy(cfg, turns, d.generation, j)
    ensures turns[j].account.Some? && turns[j].account == turns[i].account
    ensures j < i ==> turns[i].alive
  {
    var r, t := RunOf(cfg, turns[..i]), turns[i];
    EveryRunKeepsInv(cfg, turns[..i]);
    RunOfOneMore(cfg, turns, i);
    DeliveredOver(cfg, r, t, d);
    SocketOfATurn(cfg, r.session, t);
    if HasLiveSocket(r.session, t) {
      j := SocketHasItsAccount(cfg, turns, i);
    } else {
      j := i;
    }
  }

  /** A planned turn with a socket, or with the fallback and a body the second preparation accepts, sends exactly one
      body; over the socket if there is one. */
  lemma EachPlannedTurnIsSent(cfg: Config, turns: seq<Turn>, i: nat, plan: Plan) returns (d: Delivery)
    requires i < |turns| && Planned(cfg, RunOf(cfg, turns[..i]).session, turns[i]) == Some(plan)
    requires var s := RunOf(cfg, turns[..i]).session;
      || HasLiveSocket(s, turns[i]) || Dials(cfg, s, turns[i])
      || (cfg.httpFallback && HttpBody(plan.replay, turns[i].pipe).Ok?)
    ensures DeliversIn(cfg, turns, i, d) && d.plan == plan
    ensures var s := RunOf(cfg, turns[..i]).session;
      d.generation != 0 <==> HasLiveSocket(s, turns[i]) || Dials(cfg, s, turns[i])
  {
    var r, t := RunOf(cfg, turns[..i]), turns[i];
    EveryRunKeepsInv(cfg, turns[..i]);
    RunOfOneMore(cfg, turns, i);
    SocketOfATurn(cfg, r.session, t);
    d := PlannedIsSent(cfg, r, t, plan);
    DeliveredOver(cfg, r, t, d);
  }

  lemma PlannedIsSent(cfg: Config, r: Run, t: Turn, plan: Plan) returns (d: Delivery)
    requires Planned(cfg, r.session, t) == Some(plan)
    requires Ready(cfg, r.session, t).upstream.Some? || (cfg.httpFallback && HttpBody(plan.replay, t.pipe).Ok?)
    ensures Step(cfg, r, t).deliveries == r.deliveries + [d] && d.plan == plan
  {
    var ready := Ready(cfg, r.session, t);
    assert ChosenBody(ready.conversation, plan, 0, true) == plan.replay;
    d := Sent(cfg, ready, OpenSocket(r.sockets, r.session, ready), plan, t.pipe).value;
  }

  /** A session that has ended sends nothing more. */
  lemma {:induction false} NothingAfterTheEnd(cfg: Config, turns: seq<Turn>, i: nat)
    requires i <= |turns| && RunOf(cfg, turns[..i]).session.closed
    ensures RunOf(cfg, turns) == RunOf(cfg, turns[..i])
    decreases |turns|
  {
    if i == |turns| {
      assert turns[..i] == turns;
    } else {
      var init := turns[..|turns| - 1];
      assert init[..i] == turns[..i];
      NothingAfterTheEnd(cfg, init, i);
      assert turns[..|turns|] == turns;
      RunOfOneMore(cfg, turns, |turns| - 1);
    }
  }

  /* ---- cooling down ---- */

  /** A planned turn that dials, and is refused. */
  ghost predicate RefusedIn(cfg: Config, turns: seq<Turn>, i: nat) {
    && i < |turns|
    && var s := RunOf(cfg, turns[..i]).session;
      && Planned(cfg, s, turns[i]).Some? && !HasLiveSocket(s, turns[i])
      && turns[i].dial.Refused? && turns[i].now >= s.retryAt
  }

  ghost predicate Cooling(r: Run, sockets: set<nat>, until: nat) {
    r.session.upstream == None && r.session.retryAt == until && r.sockets.Keys == sockets
  }

  lemma CoolingBegins(cfg: Config, r: Run, t: Turn)
    requires Planned(cfg, r.session, t).Some? && !HasLiveSocket(r.session, t)
    requires t.dial.Refused? && t.now >= r.session.retryAt
    ensures Cooling(Step(cfg, r, t), r.sockets.Keys, t.now + 20)
  {
    SocketOfATurn(cfg, r.session, t);
    SessionAfterStep(cfg, r, t);
    HttpTurnEnds(cfg, r.session, t, Planned(cfg, r.session, t).value);
    HttpStepOpensNothing(cfg, r, t);
  }

  lemma CoolingGoesOn(cfg: Config, r: Run, t: Turn, until: nat)
    requires cfg.httpFallback && t.now < until && Cooling(r, r.sockets.Keys, until)
    ensures Cooling(Step(cfg, r, t), r.sockets.Keys, until)
  {
    SessionAfterStep(cfg, r, t);
    if Planned(cfg, r.session, t).Some? {
      var plan := Planned(cfg, r.session, t).value;
      SocketOfATurn(cfg, r.session, t);
      HttpTurnEnds(cfg, r.session, t, plan);
      HttpStepOpensNothing(cfg, r, t);
    } else {
      UnplannedTurnEnds(cfg, r.session, t);
    }
  }

  lemma HttpStepOpensNothing(cfg: Config, r: Run, t: Turn)
    requires Planned(cfg, r.session, t).Some?
    requires Ready(cfg, r.session, t).upstream.None?
    requires Ready(cfg, r.session, t).nextGeneration == r.session.nextGeneration
    ensures Step(cfg, r, t).sockets == r.sockets
  {
  }

  /** With the fallback on, a refused dial is not followed by another for twenty seconds: until then no socket is
      opened, and every turn goes over HTTP. */
  lemma {:induction false} NoDialWhileCoolingDown(cfg: Config, turns: seq<Turn>, i: nat, j: nat)
    requires cfg.httpFallback && RefusedIn(cfg, turns, i) && i < j <= |turns|
    requires forall k :: i < k < j ==> turns[k].now < turns[i].now + 20
    ensures Cooling(RunOf(cfg, turns[..j]), RunOf(cfg, turns[..i]).sockets.Keys, turns[i].now + 20)
    decreases j
  {
    RunOfOneMore(cfg, turns, j - 1);
    if j == i + 1 {
      CoolingBegins(cfg, RunOf(cfg, turns[..i]), turns[i]);
    } else {
      NoDialWhileCoolingDown(cfg, turns, i, j - 1);
      CoolingGoesOn(cfg, RunOf(cfg, turns[..j - 1]), turns[j - 1], turns[i].now + 20);
    }
  }

  /* ---- which body is sent ---- */

  /** Over a socket, a continuation of what that very socket completed last is sent as its new items alone, naming
      that response; everything else spells the conversation out and names none. */
  lemma IncrementalExactly(cfg: Config, turns: seq<Turn>, i: nat, d: Delivery)
    requires DeliversIn(cfg, turns, i, d) && d.generation != 0
    ensures var commits := RunOf(cfg, turns[..i]).commits;
      if !d.plan.reset && commits != [] && Last(commits).generation == d.generation
      then d.body.previous == Some(Text(Last(commits).terminal.id)) && ItemsOf(d.body) == d.plan.currentInput
      else d.body.previous == None && ItemsOf(d.body) == Meant(d)
  {
    var r := RunOf(cfg, turns[..i]);
    EveryRunKeepsInv(cfg, turns[..i]);
    EveryRunRemembers(cfg, turns[..i]);
    RunOfOneMore(cfg, turns, i);
    DeliveredOver(cfg, r, turns[i], d);
    PlannedMessage(cfg, r.session, turns[i], d.plan);
    BodiesDifferOnlyInTheirConversation(d.before, cfg.limits, turns[i].message.value, d.pipe, d.plan);
    PlanFields(d.before, cfg.limits, turns[i].message.value, d.pipe, d.plan);
  }

  /** A turn that goes on with the conversation is sent only with an output, of either kind, for every call, of
      either kind, in the last answer. */
  lemma LastCallsAreAnswered(cfg: Config, turns: seq<Turn>, i: nat, d: Delivery, call: Item)
    requires DeliversIn(cfg, turns, i, d) && !d.plan.reset
    requires RunOf(cfg, turns[..i]).commits != [] && call in Last(RunOf(cfg, turns[..i]).commits).terminal.output
    requires call.kind in {FunctionCall, CustomToolCall} && call.callId != ""
    ensures turns[i].message.Some? && HoldsOutput(turns[i].message.value, call.callId)
  {
    var r := RunOf(cfg, turns[..i]);
    EveryRunKeepsInv(cfg, turns[..i]);
    EveryRunRemembers(cfg, turns[..i]);
    RunOfOneMore(cfg, turns, i);
    DeliveredOver(cfg, r, turns[i], d);
    PlannedMessage(cfg, r.session, turns[i], d.plan);
    PendingCallsAreTheToolCalls(Last(r.commits).terminal.output);
    assert call.callId in r.session.conversation.pending;
    PlanHoldsOutputs(r.session.conversation, cfg.limits, turns[i].message.value, turns[i].pipe, d.plan);
  }

  lemma PlanHoldsOutputs(s: State, limits: Limits, msg: Body, pipe: Pipeline, plan: Plan)
    requires PlannedFrom(s, limits, msg, pipe, plan) && !plan.reset
    requires forall id :: id in s.pending ==> id != ""
    ensures forall id :: id in s.pending ==> HoldsOutput(msg, id)
  {
    assert Objection(s, msg) == None;
    StartingOverResets(s, limits, msg, pipe, plan);
    AcceptedExactly(s, msg);
  }

  lemma PlannedMessage(cfg: Config, s: Session, t: Turn, plan: Plan)
    requires Planned(cfg, s, t) == Some(plan)
    ensures t.message.Some? && PlannedFrom(s.conversation, cfg.limits, t.message.value, t.pipe, plan)
  {
  }

  /** What only goes on with the conversation: an append, or a create that names the last response, of nothing but
      user messages and tool outputs. */
  predicate GoesOn(msg: Body, last: string) {
    && msg.input.Some? && msg.input.value.ItemArray?
    && (msg.kind == Append || (msg.kind == Create && msg.previous == Some(Text(last)) && last != ""))
    && forall item :: item in msg.input.value.items ==>
         (item.kind == Message && item.role == User) || item.kind in {FunctionCallOutput, CustomToolCallOutput}
  }

  /** In every run, such a turn is understood as the history and its new items, whichever body it is sent with: the
      server of its socket evaluates it to their merge, and over HTTP that merge is spelled out, prepared once
      more. */
  lemma GoingOnKeepsTheHistory(cfg: Config, turns: seq<Turn>, i: nat, d: Delivery)
    requires DeliversIn(cfg, turns, i, d) && turns[i].message.Some?
    requires GoesOn(turns[i].message.value, RunOf(cfg, turns[..i]).session.conversation.lastResponseId)
    ensures var whole := Merge(RunOf(cfg, turns[..i]).session.conversation.history, d.plan.currentInput);
      if d.generation != 0 then Evaluated(d.socket, d.body) == Some(whole)
      else d.body.previous == None && d.pipe.resanitize(whole) == Ok(ItemsOf(d.body))
  {
    var r := RunOf(cfg, turns[..i]);
    EveryRunKeepsInv(cfg, turns[..i]);
    RunOfOneMore(cfg, turns, i);
    DeliveredOver(cfg, r, turns[i], d);
    PlannedMessage(cfg, r.session, turns[i], d.plan);
    ResetsExactly(d.before, cfg.limits, turns[i].message.value, d.pipe, d.plan);
    assert d in RunOf(cfg, turns[..i + 1]).deliveries;
    EverySentBodyDenotesTheConversation(cfg, turns[..i + 1], d);
  }

  lemma HistoryAfterCommit(limits: Limits, msg: Body, pipe: Pipeline, s: State, c: Commit)
    requires PlannedFrom(s, limits, msg, pipe, c.plan) && c.message == msg
    requires CommitTurn(s, limits, c.plan, Some(c.terminal), c.generation).Ok?
    ensures CommitTurn(s, limits, c.plan, Some(c.terminal), c.generation).value.history ==
      Merge(if StartsOver(msg) then c.plan.currentInput else Merge(s.history, c.plan.currentInput), c.terminal.output)
  {
    StartingOverResets(s, limits, msg, pipe, c.plan);
  }

  ghost predicate HistoryMoves(before: State, after: State, c: Commit) {
    after.history ==
      Merge(if StartsOver(c.message) then c.plan.currentInput else Merge(before.history, c.plan.currentInput),
            c.terminal.output)
  }

  lemma StepMovesHistory(cfg: Config, r: Run, t: Turn, next: Run)
    requires Inv(r) && next == Step(cfg, r, t) && next.session.conversation.history != r.session.conversation.history
    ensures next.commits != [] && t.message == Some(Last(next.commits).message)
    ensures HistoryMoves(r.session.conversation, next.session.conversation, Last(next.commits))
  {
    var ready, sockets, sent := StepDeliversOrIdles(cfg, r, t);
    if sent.Some? {
      CommittedOrNot(cfg, r, t, ready, sockets, sent.value, next);
      HistoryAfterCommit(cfg.limits, t.message.value, t.pipe, r.session.conversation, Last(next.commits));
    }
  }

  /** A conversation's history changes only by committing a turn: to the merge of what was, the turn's items and the
      answer, or without what was if the turn's message starts over. */
  lemma HistoryIsOnlyDroppedByStartingOver(cfg: Config, turns: seq<Turn>, i: nat)
    requires i < |turns|
    ensures var before, after := RunOf(cfg, turns[..i]), RunOf(cfg, turns[..i + 1]);
      after.session.conversation.history != before.session.conversation.history ==>
        && after.commits != [] && turns[i].message == Some(Last(after.commits).message)
        && HistoryMoves(before.session.conversation, after.session.conversation, Last(after.commits))
  {
    EveryRunKeepsInv(cfg, turns[..i]);
    RunOfOneMore(cfg, turns, i);
    var r, next := RunOf(cfg, turns[..i]), RunOf(cfg, turns[..i + 1]);
    if next.session.conversation.history != r.session.conversation.history {
      StepMovesHistory(cfg, r, turns[i], next);
    }
  }
}
