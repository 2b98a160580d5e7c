/** What holds in every run: each body that is sent denotes the conversation the gateway means. */
module RunProperties {
  import opened Items
  import opened Selection
  import opened ItemMerge
  import opened Requests
  import opened Conversation
  import opened Sessions
  import opened SessionRuns
  import opened TurnProperties

  /* ---- the invariant ---- */

  /** The server of the conversation's own socket remembers what the conversation remembers. */
  ghost predicate Holds(socket: Socket, s: State) {
    && socket.last == s.lastResponseId
    && socket.merged == s.history
    && Subsequence(s.history, socket.appended)
    && (DuplicateFree(socket.appended) ==> socket.appended == s.history)
  }

  ghost predicate Numbered(session: Session, sockets: map<nat, Socket>) {
    && (forall g :: g in sockets ==> 0 < g <= session.nextGeneration)
    && (session.upstream.Some? ==> session.upstream.value.generation in sockets)
    && session.conversation.lastGeneration <= session.nextGeneration
    && (session.conversation.hasCompleted ==> session.conversation.lastResponseId != "")
  }

  ghost predicate Synced(session: Session, sockets: map<nat, Socket>) {
    !session.closed && session.upstream.Some? && session.upstream.value.generation in sockets
      && session.upstream.value.generation == session.conversation.lastGeneration ==>
      Holds(sockets[session.upstream.value.generation], session.conversation)
  }

  function Meant(d: Delivery): seq<Item> {
    Intended(d.before, d.plan.reset, d.plan.currentInput)
  }

  /** The server of a WebSocket delivery evaluates exactly the intended conversation; over HTTP the body
      spells out what the second preparation makes of that conversation. */
  ghost predicate Denotes(d: Delivery) {
    if d.generation != 0 then Evaluated(d.socket, d.body) == Some(Meant(d))
    else d.body.previous.None? && d.pipe.resanitize(Meant(d)) == Ok(ItemsOf(d.body))
  }

  /** A body names a previous response only towards the socket that completed it last. */
  ghost predicate NamesItsOwnResponse(d: Delivery) {
    d.body.previous.Some? ==>
      && d.generation != 0 && d.generation == d.before.lastGeneration
      && JsonString(d.body.previous) == d.socket.last == d.before.lastResponseId != ""
  }

  /** A server that appends sees the same conversation exactly when nothing in it is repeated, and
      otherwise sees it with the repetitions still in. */
  ghost predicate AppendsToTheSame(d: Delivery) {
    d.generation != 0 ==>
      var appended := EvaluatedByAppending(d.socket, d.body);
      && Subsequence(Meant(d), appended)
      && (appended == Meant(d) <==> d.body.previous.None? || DuplicateFree(appended))
  }

  ghost predicate Sound(d: Delivery) {
    Denotes(d) && NamesItsOwnResponse(d) && AppendsToTheSame(d)
  }

  ghost predicate Inv(r: Run) {
    && Numbered(r.session, r.sockets)
    && Synced(r.session, r.sockets)
    && forall d :: d in r.deliveries ==> Sound(d)
  }

  /* ---- one delivery ---- */

  lemma AppendingAgrees(s: State, current: seq<Item>, socket: Socket)
    requires Holds(socket, s)
    ensures Subsequence(Merge(s.history, current), socket.appended + current)
    ensures socket.appended + current == Merge(s.history, current) <==> DuplicateFree(socket.appended + current)
  {
    MergeIsDuplicateFree(s.history + current);
    SubsequenceConcat(s.history, socket.appended, current);
    SubsequenceTransitive(Merge(s.history, current), s.history + current, socket.appended + current);
    if DuplicateFree(socket.appended + current) {
      PrefixIsDuplicateFree(socket.appended, current);
      DuplicateFreeIsKept(s.history + current);
    }
  }

  lemma PrefixIsDuplicateFree(a: seq<Item>, b: seq<Item>)
    requires DuplicateFree(a + b)
    ensures DuplicateFree(a)
  {
    assert forall i :: 0 <= i < |a| ==> a[i] == (a + b)[i];
  }

  lemma SocketDeliveryIsSound(limits: Limits, msg: Body, d: Delivery)
    requires PlannedFrom(d.before, limits, msg, d.pipe, d.plan)
    requires d.generation != 0 && d.body == ChosenBody(d.before, d.plan, d.generation, false)
    requires d.generation == d.before.lastGeneration ==> Holds(d.socket, d.before)
    requires d.before.hasCompleted ==> d.before.lastResponseId != ""
    ensures Sound(d)
  {
    BodiesDifferOnlyInTheirConversation(d.before, limits, msg, d.pipe, d.plan);
    if d.body.previous.Some? {
      assert d.body == d.plan.incremental && d.plan.continuation;
      AppendingAgrees(d.before, d.plan.currentInput, d.socket);
    } else {
      SubsequenceReflexive(Meant(d));
    }
  }

  lemma HttpDeliveryIsSound(limits: Limits, msg: Body, d: Delivery)
    requires PlannedFrom(d.before, limits, msg, d.pipe, d.plan)
    requires d.generation == 0 && HttpBody(d.plan.replay, d.pipe) == Ok(d.body)
    ensures Sound(d)
  {
    BodiesDifferOnlyInTheirConversation(d.before, limits, msg, d.pipe, d.plan);
  }

  /** Once a delivered turn is committed, server and conversation agree again. */
  lemma AnswerIsHeld(limits: Limits, d: Delivery, response: Terminal)
    requires Sound(d) && d.generation != 0
    requires CommitTurn(d.before, limits, d.plan, Some(response), d.generation).Ok?
    ensures Holds(Answer(d.socket, d.body, response),
                  CommitTurn(d.before, limits, d.plan, Some(response), d.generation).value)
  {
    var meant, appended := Meant(d), EvaluatedByAppending(d.socket, d.body);
    MergeIsDuplicateFree(meant + response.output);
    SubsequenceConcat(meant, appended, response.output);
    SubsequenceTransitive(Merge(meant, response.output), meant + response.output, appended + response.output);
    if DuplicateFree(appended + response.output) {
      PrefixIsDuplicateFree(appended, response.output);
      if d.body.previous.None? {
        assert appended == meant;
      }
      DuplicateFreeIsKept(meant + response.output);
    }
  }

  /* ---- one turn ---- */

  lemma ReadyIsNumbered(cfg: Config, s: Session, sockets: map<nat, Socket>, t: Turn)
    requires Numbered(s, sockets) && Synced(s, sockets)
    ensures var ready := Ready(cfg, s, t);
      && Numbered(ready, OpenSocket(sockets, s, ready)) && Synced(ready, OpenSocket(sockets, s, ready))
      && ready.conversation == s.conversation && ready.closed == s.closed
      && (ready.upstream.Some? && ready.upstream != s.upstream ==>
            forall g :: g in sockets ==> g < ready.upstream.value.generation)
  {
  }

  /** A turn that sends a body: what was ready, and how the run goes on. */
  ghost predicate Delivers(cfg: Config, r: Run, t: Turn, ready: Session, sockets: map<nat, Socket>, d: Delivery,
                           next: Run)
  {
    && ready.conversation == r.session.conversation && !ready.closed
    && Numbered(ready, sockets) && Synced(ready, sockets)
    && NumbersUpward(r, r.(session := ready, sockets := sockets))
    && t.message.Some? && PlannedFrom(ready.conversation, cfg.limits, t.message.value, t.pipe, d.plan)
    && Sent(cfg, ready, sockets, d.plan, t.pipe) == Some(d)
    && (d.generation != 0 <==> ready.upstream.Some?)
    && next == Deliver(cfg, r, RunPlan(cfg, ready, d.plan, t), sockets, d, t)
  }

  /** A turn that sends none changes neither what is remembered nor what was sent. */
  ghost predicate Idles(r: Run, next: Run) {
    && next.session.conversation == r.session.conversation
    && next.deliveries == r.deliveries && next.commits == r.commits
    && Numbered(next.session, next.sockets) && Synced(next.session, next.sockets)
    && NumbersUpward(r, next)
  }

  lemma StepDeliversOrIdles(cfg: Config, r: Run, t: Turn)
    returns (ready: Session, sockets: map<nat, Socket>, sent: Option<Delivery>)
    requires Numbered(r.session, r.sockets) && Synced(r.session, r.sockets)
    ensures sent.Some? ==> Delivers(cfg, r, t, ready, sockets, sent.value, Step(cfg, r, t))
    ensures sent.None? ==> Idles(r, Step(cfg, r, t))
  {
    ready, sockets, sent := r.session, r.sockets, None;
    var planned := Planned(cfg, r.session, t);
    if planned.Some? {
      ready := Ready(cfg, r.session, t);
      sockets := OpenSocket(r.sockets, r.session, ready);
      ReadyIsNumbered(cfg, r.session, r.sockets, t);
      ReadyNumbersUpward(cfg, r, t);
      sent := Sent(cfg, ready, sockets, planned.value, t.pipe);
    }
  }

  lemma StepKeepsInv(cfg: Config, r: Run, t: Turn)
    requires Inv(r)
    ensures Inv(Step(cfg, r, t))
  {
    var ready, sockets, sent := StepDeliversOrIdles(cfg, r, t);
    if sent.Some? {
      DeliveryKeepsInv(cfg, r, t, ready, sockets, sent.value, Step(cfg, r, t));
    }
  }

  lemma DeliveryKeepsInv(cfg: Config, r: Run, t: Turn, ready: Session, sockets: map<nat, Socket>, d: Delivery,
                         next: Run)
    requires Inv(r) && Delivers(cfg, r, t, ready, sockets, d, next)
    ensures Inv(next)
  {
    DeliveryIsSound(cfg, r, t, ready, sockets, d, next);
    DeliveryNumbers(cfg, r, t, ready, sockets, d, next);
    DeliverySyncs(cfg, r, t, ready, sockets, d, next);
  }

  lemma DeliveryIsSound(cfg: Config, r: Run, t: Turn, ready: Session, sockets: map<nat, Socket>, d: Delivery, next: Run)
    requires Delivers(cfg, r, t, ready, sockets, d, next)
    ensures Sound(d)
  {
    if d.generation == 0 {
      HttpDeliveryIsSound(cfg.limits, t.message.value, d);
    } else {
      SocketDeliveryIsSound(cfg.limits, t.message.value, d);
    }
  }

  lemma DeliveryNumbers(cfg: Config, r: Run, t: Turn, ready: Session, sockets: map<nat, Socket>, d: Delivery, next: Run)
    requires Delivers(cfg, r, t, ready, sockets, d, next)
    ensures Numbered(next.session, next.sockets)
  {
    RunPlanOpensNothing(cfg, ready, d.plan, t);
    RunPlanCommitsUnderALiveNumber(cfg, ready, d.plan, t);
    DeliverKeepsSockets(cfg, r, RunPlan(cfg, ready, d.plan, t), sockets, d, t);
  }

  /** Sending and answering open no further socket. */
  lemma RunPlanOpensNothing(cfg: Config, ready: Session, plan: Plan, t: Turn)
    ensures var after := RunPlan(cfg, ready, plan, t);
      && after.nextGeneration == ready.nextGeneration
      && (after.upstream == ready.upstream || after.upstream.None?)
  {
  }

  lemma RunPlanCommitsUnderALiveNumber(cfg: Config, ready: Session, plan: Plan, t: Turn)
    ensures var before, after := ready.conversation, RunPlan(cfg, ready, plan, t).conversation;
      after != before ==>
        && after.lastResponseId != ""
        && (after.lastGeneration == 0 ||
            (ready.upstream.Some? && after.lastGeneration == ready.upstream.value.generation))
  {
  }

  lemma DeliverKeepsSockets(cfg: Config, r: Run, after: Session, sockets: map<nat, Socket>, d: Delivery, t: Turn)
    requires d.generation != 0 ==> d.generation in sockets
    ensures Deliver(cfg, r, after, sockets, d, t).sockets.Keys == sockets.Keys
  {
  }

  lemma DeliverySyncs(cfg: Config, r: Run, t: Turn, ready: Session, sockets: map<nat, Socket>, d: Delivery, next: Run)
    requires Delivers(cfg, r, t, ready, sockets, d, next) && Sound(d)
    ensures Synced(next.session, next.sockets)
  {
    if d.generation != 0 && t.written && t.ending.Finished? {
      FinishedTurnSyncs(cfg, ready, sockets, d, t.ending.terminal);
    }
  }

  lemma FinishedTurnSyncs(cfg: Config, ready: Session, sockets: map<nat, Socket>, d: Delivery,
                          terminal: Option<Terminal>)
    requires Sound(d) && d.generation != 0 && d.before == ready.conversation && Synced(ready, sockets)
    requires ready.upstream.Some? && d.generation == ready.upstream.value.generation
    ensures Synced(ForwardTurn(cfg, ready, d.plan, d.generation, Finished(terminal)),
                   if terminal.Some? then sockets[d.generation := Answer(d.socket, d.body, terminal.value)]
                   else sockets)
  {
    if terminal.Some? && CommitTurn(d.before, cfg.limits, d.plan, terminal, d.generation).Ok? {
      AnswerIsHeld(cfg.limits, d, terminal.value);
    }
  }

  /* ---- every run ---- */

  lemma RunOfOneMore(cfg: Config, turns: seq<Turn>, i: nat)
    requires i < |turns|
    ensures RunOf(cfg, turns[..i + 1]) == Step(cfg, RunOf(cfg, turns[..i]), turns[i])
  {
    assert turns[..i + 1][..i] == turns[..i];
  }

  lemma {:induction false} EveryRunKeepsInv(cfg: Config, turns: seq<Turn>)
    ensures Inv(RunOf(cfg, turns))
  {
    if turns != [] {
      EveryRunKeepsInv(cfg, turns[..|turns| - 1]);
      StepKeepsInv(cfg, RunOf(cfg, turns[..|turns| - 1]), turns[|turns| - 1]);
    }
  }

  /** Whatever was reused, replaced, lost or refused before: a WebSocket server evaluates each body to
      the merge of the history and the new input, or to the new input alone after a reset; and over HTTP
      the body names no response and spells out that same conversation, prepared once more. */
  lemma EverySentBodyDenotesTheConversation(cfg: Config, turns: seq<Turn>, d: Delivery)
    requires d in RunOf(cfg, turns).deliveries
    ensures var meant := if d.plan.reset then d.plan.currentInput else Merge(d.before.history, d.plan.currentInput);
      && (d.generation != 0 ==> Evaluated(d.socket, d.body) == Some(meant))
      && (d.generation == 0 ==> d.body.previous.None? && d.pipe.resanitize(meant) == Ok(ItemsOf(d.body)))
  {
    EveryRunKeepsInv(cfg, turns);
  }

  /** A delivery stems from a plan made in the state it was sent from. */
  ghost predicate WasPlanned(limits: Limits, d: Delivery) {
    && (exists msg :: PlannedFrom(d.before, limits, msg, d.pipe, d.plan))
    && (if d.generation == 0 then HttpBody(d.plan.replay, d.pipe) == Ok(d.body)
        else d.body == ChosenBody(d.before, d.plan, d.generation, false))
  }

  lemma {:induction false} EveryDeliveryWasPlanned(cfg: Config, turns: seq<Turn>, d: Delivery)
    requires d in RunOf(cfg, turns).deliveries
    ensures WasPlanned(cfg.limits, d)
  {
    if turns != [] {
      var before, t := RunOf(cfg, turns[..|turns| - 1]), turns[|turns| - 1];
      EveryRunKeepsInv(cfg, turns[..|turns| - 1]);
      var ready, sockets, sent := StepDeliversOrIdles(cfg, before, t);
      if d in before.deliveries {
        EveryDeliveryWasPlanned(cfg, turns[..|turns| - 1], d);
      } else {
        assert d == sent.value;
        assert PlannedFrom(d.before, cfg.limits, t.message.value, d.pipe, d.plan);
      }
    }
  }

  /** A body naming a previous response goes to the socket that completed exactly that response last;
      the HTTP route never names one. */
  lemma PreviousResponseStaysOnItsSocket(cfg: Config, turns: seq<Turn>, d: Delivery)
    requires d in RunOf(cfg, turns).deliveries && d.body.previous.Some?
    ensures d.generation != 0 && d.generation == d.before.lastGeneration
    ensures JsonString(d.body.previous) == d.socket.last == d.before.lastResponseId != ""
  {
    EveryRunKeepsInv(cfg, turns);
  }

  /** A server that appends instead of merging evaluates the same conversation exactly when the body
      spells it out or nothing in it is repeated. */
  lemma AppendingServerAgreesExactly(cfg: Config, turns: seq<Turn>, d: Delivery)
    requires d in RunOf(cfg, turns).deliveries && d.generation != 0
    ensures EvaluatedByAppending(d.socket, d.body) == Meant(d) <==>
      d.body.previous.None? || DuplicateFree(EvaluatedByAppending(d.socket, d.body))
    ensures Subsequence(Meant(d), EvaluatedByAppending(d.socket, d.body))
  {
    EveryRunKeepsInv(cfg, turns);
  }

  /** On the conversation's own socket the two bodies of a continuation are interchangeable. */
  lemma EitherBodyDenotesTheSame(cfg: Config, turns: seq<Turn>, msg: Body, pipe: Pipeline, plan: Plan)
    requires var r := RunOf(cfg, turns);
      && !r.session.closed && r.session.upstream.Some?
      && r.session.upstream.value.generation == r.session.conversation.lastGeneration
      && PlannedFrom(r.session.conversation, cfg.limits, msg, pipe, plan) && plan.continuation
    ensures var r := RunOf(cfg, turns);
      && r.session.upstream.value.generation in r.sockets
      && Evaluated(r.sockets[r.session.upstream.value.generation], plan.incremental) ==
         Evaluated(r.sockets[r.session.upstream.value.generation], plan.replay) ==
         Some(Merge(r.session.conversation.history, plan.currentInput))
  {
    EveryRunKeepsInv(cfg, turns);
    BodiesDifferOnlyInTheirConversation(RunOf(cfg, turns).session.conversation, cfg.limits, msg, pipe, plan);
  }

  ghost predicate NumbersUpward(before: Run, after: Run) {
    && 0 !in after.sockets
    && before.sockets.Keys <= after.sockets.Keys
    && (forall g, h :: g in after.sockets && g !in before.sockets && h in before.sockets ==> h < g)
    && (after.session.upstream.Some? && after.session.upstream != before.session.upstream ==>
          after.session.upstream.value.generation !in before.sockets)
  }

  lemma ReadyNumbersUpward(cfg: Config, r: Run, t: Turn)
    requires Numbered(r.session, r.sockets) && Synced(r.session, r.sockets)
    ensures var ready := Ready(cfg, r.session, t);
      NumbersUpward(r, r.(session := ready, sockets := OpenSocket(r.sockets, r.session, ready)))
  {
    ReadyIsNumbered(cfg, r.session, r.sockets, t);
  }

  lemma StepNumbersUpward(cfg: Config, r: Run, t: Turn)
    requires Inv(r)
    ensures NumbersUpward(r, Step(cfg, r, t))
  {
    var ready, sockets, sent := StepDeliversOrIdles(cfg, r, t);
    if sent.Some? {
      DeliveryNumbersUpward(cfg, r, t, ready, sockets, sent.value, Step(cfg, r, t));
    }
  }

  lemma DeliveryNumbersUpward(cfg: Config, r: Run, t: Turn, ready: Session, sockets: map<nat, Socket>, d: Delivery,
                              next: Run)
    requires Delivers(cfg, r, t, ready, sockets, d, next)
    ensures NumbersUpward(r, next)
  {
    RunPlanOpensNothing(cfg, ready, d.plan, t);
    DeliverKeepsSockets(cfg, r, RunPlan(cfg, ready, d.plan, t), sockets, d, t);
  }

  /** A new socket gets a generation above every earlier one, and no socket has generation 0. */
  lemma GenerationsOnlyIncrease(cfg: Config, turns: seq<Turn>, t: Turn)
    ensures NumbersUpward(RunOf(cfg, turns), Step(cfg, RunOf(cfg, turns), t))
  {
    EveryRunKeepsInv(cfg, turns);
    StepNumbersUpward(cfg, RunOf(cfg, turns), t);
  }
}
