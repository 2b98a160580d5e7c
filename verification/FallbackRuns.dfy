/** A run in which the HTTP fallback delivers something other than the intended conversation. */
module FallbackRuns {
  import opened Items
  import opened ItemMerge
  import opened Requests
  import opened Conversation
  import opened Sessions
  import opened SessionRuns
  import opened TurnProperties
  import opened RunProperties
  import opened Identity
  import opened InputItems
  import opened InputItemProperties
  import opened FallbackProperties
  import opened RecordedIds
  import opened IdentityRuns

  function Ask(text: string): Item {
    Item(Message, "", "", User, Missing, text)
  }

  /** An assistant message as an upstream answers it. */
  function Reply(id: string): Item {
    Item(Message, id, "", Assistant, Missing, "")
  }

  /** An id that lacks its prefix, short enough to be given one. */
  predicate Bare(id: string) {
    id != "" && !("msg" <= id) && |id| <= ID_LIMIT - 4
  }

  /** The fallback is on, and neither the replay limit nor the identity refuses anything. */
  ghost predicate Accepts(cfg: Config, pipe: Pipeline) {
    && cfg.httpFallback
    && (forall body :: Replayable(cfg.limits, body))
    && (forall rest :: pipe.identify(rest).Ok?)
  }

  function AskingBody(kind: MessageType, model: string, text: string): Body {
    Body(kind, model, Some(ItemArray([Ask(text)])), None, None, map[], map[])
  }

  /** A turn whose dial is refused and whose HTTP answer completes with `terminal`. */
  function FallbackTurn(message: Body, pipe: Pipeline, terminal: Terminal): Turn {
    Turn(Granted, Some("account"), Some(message), pipe, false, 0, Refused, false, true, Finished(Some(terminal)))
  }

  ghost function RepairedBy(pipe: Pipeline, d: Digests, account: Account): Pipeline {
    var sanitize := Sanitizer(d, Some(account), NO_MAPPING);
    pipe.(sanitize := sanitize, resanitize := sanitize)
  }

  /* ---- the repair of what is sent ---- */

  lemma AskIsPrepared(text: string)
    ensures Prepared(Ask(text), false)
  {
  }

  lemma ReplyIsNotPrepared(id: string)
    requires Bare(id)
    ensures !Prepared(Reply(id), false)
  {
    assert Canonical(Message, id) == "msg_" + id;
  }

  lemma AskIsKept(d: Digests, account: Account, text: string)
    requires WellSized(d)
    ensures Sanitizer(d, Some(account), NO_MAPPING)([Ask(text)]) == Ok([Ask(text)])
    ensures Through(d, Some(account), [Ask(text)], false, NO_MAPPING, 1).mapping == NO_MAPPING
  {
    AskIsPrepared(text);
    PreparingTwiceIsPreparingOnce(d, Some(account), [Ask(text)], false, NO_MAPPING);
    assert Terminates(d, Some(account), [Ask(text)], false, NO_MAPPING);
  }

  lemma BareIdNeedsNoSearch(d: Digests, account: Account, id: string)
    requires WellSized(d) && Bare(id)
    ensures !Searches(d, Some(account), Message, id, {})
  {
    assert Canonical(Message, id) == "msg_" + id;
    assert |d.uuid(account.keyId, "input-item:msg", id)| == UUID_LENGTH;
  }

  /** The mapping after the reply's id was recorded in an empty one. */
  ghost function Recording(d: Digests, account: Account, id: string): Mapping {
    Recorded(Some(account), NO_MAPPING, IdOf(SentItem(d, Some(account), Reply(id), false, {}, {})), id)
  }

  lemma RecordingSucceeds(d: Digests, account: Account, id: string)
    requires WellSized(d) && Bare(id)
    ensures Recording(d, account, id).failure.None?
  {
    var upstream := Assigned(d, Some(account), Message, id, {}, {});
    AssignedId(d, Some(account), Message, id, {}, {});
    BytesAtMost(upstream);
    BytesAtMost(id);
  }

  lemma SpelledOutIsRepaired(d: Digests, account: Account, asked: string, id: string, added: string)
    requires WellSized(d) && Bare(id)
    ensures Sanitizer(d, Some(account), NO_MAPPING)([Ask(asked), Reply(id), Ask(added)]).Ok?
  {
    var items := [Ask(asked), Reply(id), Ask(added)];
    NothingIsReserved(asked, id, added);
    BareIdNeedsNoSearch(d, account, id);
    forall n | 0 <= n < |items|
      ensures EndsFor(d, Some(account), items[n], false, Reserved(items),
                      Through(d, Some(account), items, false, NO_MAPPING, n).used)
    {
    }
    SpelledOutIsRecorded(d, account, asked, id, added);
    RecordingSucceeds(d, account, id);
  }

  lemma NothingIsReserved(asked: string, id: string, added: string)
    requires Bare(id)
    ensures Reserved([Ask(asked), Reply(id), Ask(added)]) == {}
  {
    ReplyIsNotPrepared(id);
  }

  lemma SpelledOutIsRecorded(d: Digests, account: Account, asked: string, id: string, added: string)
    requires WellSized(d) && Bare(id)
    ensures Through(d, Some(account), [Ask(asked), Reply(id), Ask(added)], false, NO_MAPPING, 3).mapping ==
      Recording(d, account, id)
  {
    var items := [Ask(asked), Reply(id), Ask(added)];
    NothingIsReserved(asked, id, added);
    var p0 := Progress([], {}, NO_MAPPING);
    var p1 := Advance(d, Some(account), items[0], false, {}, p0);
    var p2 := Advance(d, Some(account), items[1], false, {}, p1);
    assert Through(d, Some(account), items, false, NO_MAPPING, 1) == p1;
    assert Through(d, Some(account), items, false, NO_MAPPING, 2) == p2;
    assert p1.used == {} && p1.mapping == NO_MAPPING;
    assert p2.mapping == Recording(d, account, id);
    AskIsPrepared(added);
    PreparedItemStays(d, Some(account), items[2], false, {}, p2);
  }

  /* ---- one turn ---- */

  lemma AskIsPlanned(cfg: Config, s: State, msg: Body, pipe: Pipeline, text: string) returns (plan: Plan)
    requires Accepts(cfg, pipe) && Objection(s, msg) == None && msg.input == Some(ItemArray([Ask(text)]))
    requires forall clean :: pipe.sanitize([Ask(clean)]) == Ok([Ask(clean)])
    ensures PlannedFrom(s, cfg.limits, msg, pipe, plan)
    ensures plan.reset == !Continues(msg) && plan.currentInput == [Ask(pipe.cleanContent(text))]
    ensures plan.model == ChosenModel(s, msg)
  {
    var carried := Carry(s, msg);
    assert carried.input == msg.input && carried.model == ChosenModel(s, msg) != "";
    assert NormalizeInput(msg.input.value, pipe.cleanContent) == ItemArray([Ask(pipe.cleanContent(text))]) by {
      assert NormalizeItems([Ask(text)], pipe.cleanContent) == [Ask(pipe.cleanContent(text))];
    }
    var normalized := Normalize(carried, pipe).value;
    assert FinishBody(normalized, pipe).Ok?;
    plan := FinishedPlan(s, cfg.limits, carried, pipe, !Continues(msg), msg.instructions.Some?).value;
  }

  /** The session once the dial was refused or is still cooling down. */
  lemma NoUpstream(cfg: Config, s: Session, msg: Body, pipe: Pipeline, terminal: Terminal)
    requires s.upstream.None?
    ensures var ready := Ready(cfg, s, FallbackTurn(msg, pipe, terminal));
      && ready.upstream.None? && ready.conversation == s.conversation && ready.closed == s.closed
      && ready.nextGeneration == s.nextGeneration
  {
  }

  lemma FallbackCommits(cfg: Config, ready: Session, msg: Body, pipe: Pipeline, terminal: Terminal, plan: Plan)
    requires Accepts(cfg, pipe) && terminal.id != "" && ready.upstream.None? && HttpBody(plan.replay, pipe).Ok?
    ensures RunPlan(cfg, ready, plan, FallbackTurn(msg, pipe, terminal)) ==
      ready.(conversation := Committed(ready.conversation, plan, terminal, 0))
  {
    assert ChosenBody(ready.conversation, plan, 0, true) == plan.replay;
  }

  lemma SentOverHttp(cfg: Config, ready: Session, sockets: map<nat, Socket>, plan: Plan, pipe: Pipeline)
    requires cfg.httpFallback && ready.upstream.None? && HttpBody(plan.replay, pipe).Ok?
    ensures Sent(cfg, ready, sockets, plan, pipe) ==
      Some(Delivery(0, HttpBody(plan.replay, pipe).value, NEW_SOCKET, ready.conversation, plan, pipe))
  {
    assert ChosenBody(ready.conversation, plan, 0, true) == plan.replay;
  }

  /** A planned turn whose dial is refused is delivered over HTTP and committed. */
  lemma FallsBack(cfg: Config, r: Run, msg: Body, pipe: Pipeline, terminal: Terminal, plan: Plan)
    returns (sent: Delivery)
    requires Accepts(cfg, pipe) && terminal.id != ""
    requires !r.session.closed && r.session.upstream.None?
    requires PlannedFrom(r.session.conversation, cfg.limits, msg, pipe, plan) && HttpBody(plan.replay, pipe).Ok?
    ensures sent.generation == 0 && sent.before == r.session.conversation && sent.plan == plan && sent.pipe == pipe
    ensures var next := Step(cfg, r, FallbackTurn(msg, pipe, terminal));
      && next.deliveries == r.deliveries + [sent]
      && next.session.conversation == Committed(r.session.conversation, plan, terminal, 0)
      && !next.session.closed && next.session.upstream.None?
  {
    var t := FallbackTurn(msg, pipe, terminal);
    var ready := Ready(cfg, r.session, t);
    var sockets := OpenSocket(r.sockets, r.session, ready);
    NoUpstream(cfg, r.session, msg, pipe, terminal);
    SentOverHttp(cfg, ready, sockets, plan, pipe);
    sent := Sent(cfg, ready, sockets, plan, pipe).value;
    assert Planned(cfg, r.session, t) == Some(plan);
    FallbackCommits(cfg, ready, msg, pipe, terminal, plan);
    StepFallsBack(cfg, r, t, ready, sockets, sent, plan);
  }

  lemma StepFallsBack(cfg: Config, r: Run, t: Turn, ready: Session, sockets: map<nat, Socket>, sent: Delivery,
                      plan: Plan)
    requires Planned(cfg, r.session, t) == Some(plan)
    requires ready == Ready(cfg, r.session, t) && sockets == OpenSocket(r.sockets, r.session, ready)
    requires Sent(cfg, ready, sockets, plan, t.pipe) == Some(sent)
    ensures Step(cfg, r, t).deliveries == r.deliveries + [sent]
    ensures Step(cfg, r, t).session == RunPlan(cfg, ready, plan, t)
  {
  }

  /* ---- the run ---- */

  /** What the client asks first, and what the upstream answers. */
  function Opening(pipe: Pipeline, asked: string, id: string): Turn {
    FallbackTurn(AskingBody(Create, "model", asked), pipe, Terminal("response", [Reply(id)], None))
  }

  /** What the client appends. */
  function Appending(pipe: Pipeline, added: string): Turn {
    FallbackTurn(AskingBody(Append, "", added), pipe, Terminal("next response", [], None))
  }

  /** The conversation after the opening turn. */
  ghost predicate Opened(s: Session, asked: string, id: string) {
    && !s.closed && s.upstream.None?
    && s.conversation.history == [Ask(asked), Reply(id)]
    && s.conversation.hasCompleted && s.conversation.pending == [] && s.conversation.model != ""
  }

  lemma SpelledOutIsDuplicateFree(asked: string, id: string, added: string)
    ensures Merge([Ask(asked)], [Reply(id)]) == [Ask(asked), Reply(id)]
    ensures Merge([Ask(asked), Reply(id)], [Ask(added)]) == [Ask(asked), Reply(id), Ask(added)]
  {
    assert [Ask(asked)] + [Reply(id)] == [Ask(asked), Reply(id)];
    assert [Ask(asked), Reply(id)] + [Ask(added)] == [Ask(asked), Reply(id), Ask(added)];
    DuplicateFreeIsKept([Ask(asked), Reply(id)]);
    DuplicateFreeIsKept([Ask(asked), Reply(id), Ask(added)]);
  }

  lemma OpeningIsPlanned(cfg: Config, pipe: Pipeline, d: Digests, account: Account, asked: string)
    returns (plan: Plan)
    requires WellSized(d) && Accepts(cfg, pipe)
    ensures PlannedFrom(FRESH, cfg.limits, AskingBody(Create, "model", asked), RepairedBy(pipe, d, account), plan)
    ensures plan.reset && plan.currentInput == [Ask(pipe.cleanContent(asked))] && plan.model == "model"
    ensures plan.replay.input == Some(ItemArray(plan.currentInput))
  {
    var repaired := RepairedBy(pipe, d, account);
    forall text
      ensures repaired.sanitize([Ask(text)]) == Ok([Ask(text)])
    {
      AskIsKept(d, account, text);
    }
    var msg := AskingBody(Create, "model", asked);
    assert Objection(FRESH, msg) == None && !Continues(msg);
    plan := AskIsPlanned(cfg, FRESH, msg, repaired, asked);
    BodiesDifferOnlyInTheirConversation(FRESH, cfg.limits, msg, repaired, plan);
  }

  lemma AskedReplayIsRepaired(plan: Plan, pipe: Pipeline, d: Digests, account: Account, asked: string)
    requires WellSized(d) && plan.replay.input == Some(ItemArray([Ask(asked)]))
    ensures HttpBody(plan.replay, RepairedBy(pipe, d, account)).Ok?
  {
    AskIsKept(d, account, asked);
  }

  lemma OpeningTurn(cfg: Config, pipe: Pipeline, d: Digests, account: Account, asked: string, id: string)
    requires WellSized(d) && Accepts(cfg, pipe)
    ensures Opened(Step(cfg, START, Opening(RepairedBy(pipe, d, account), asked, id)).session,
                   pipe.cleanContent(asked), id)
  {
    var plan := OpeningIsPlanned(cfg, pipe, d, account, asked);
    AskedReplayIsRepaired(plan, pipe, d, account, pipe.cleanContent(asked));
    var sent := FallsBack(cfg, START, AskingBody(Create, "model", asked), RepairedBy(pipe, d, account),
                          Terminal("response", [Reply(id)], None), plan);
    SpelledOutIsDuplicateFree(pipe.cleanContent(asked), id, "");
    NothingIsPending(id);
  }

  lemma NothingIsPending(id: string)
    ensures PendingCalls([Reply(id)]) == []
  {
    assert [Reply(id)][..0] == [];
  }

  lemma ReplayIsRepaired(plan: Plan, pipe: Pipeline, d: Digests, account: Account, asked: string, id: string,
                         added: string)
    requires WellSized(d) && Bare(id)
    requires plan.replay.input == Some(ItemArray([Ask(asked), Reply(id), Ask(added)]))
    ensures HttpBody(plan.replay, RepairedBy(pipe, d, account)).Ok?
  {
    SpelledOutIsRepaired(d, account, asked, id, added);
  }

  lemma AppendingIsPlanned(cfg: Config, s: State, pipe: Pipeline, d: Digests, account: Account, added: string)
    returns (plan: Plan)
    requires WellSized(d) && Accepts(cfg, pipe)
    requires s.hasCompleted && s.pending == [] && s.model != ""
    ensures PlannedFrom(s, cfg.limits, AskingBody(Append, "", added), RepairedBy(pipe, d, account), plan)
    ensures !plan.reset && plan.currentInput == [Ask(pipe.cleanContent(added))]
    ensures plan.replay.input == Some(ItemArray(Merge(s.history, plan.currentInput)))
  {
    var repaired := RepairedBy(pipe, d, account);
    forall text
      ensures repaired.sanitize([Ask(text)]) == Ok([Ask(text)])
    {
      AskIsKept(d, account, text);
    }
    var msg := AskingBody(Append, "", added);
    assert Objection(s, msg) == None && Continues(msg);
    plan := AskIsPlanned(cfg, s, msg, repaired, added);
    BodiesDifferOnlyInTheirConversation(s, cfg.limits, msg, repaired, plan);
  }

  lemma AppendingTurn(cfg: Config, r: Run, pipe: Pipeline, d: Digests, account: Account, asked: string, id: string,
                      added: string)
    returns (sent: Delivery)
    requires WellSized(d) && Accepts(cfg, pipe) && Bare(id) && Opened(r.session, asked, id)
    ensures Step(cfg, r, Appending(RepairedBy(pipe, d, account), added)).deliveries == r.deliveries + [sent]
    ensures sent.generation == 0 && sent.pipe == RepairedBy(pipe, d, account)
    ensures Meant(sent) == [Ask(asked), Reply(id), Ask(pipe.cleanContent(added))]
  {
    var plan := AppendingIsPlanned(cfg, r.session.conversation, pipe, d, account, added);
    SpelledOutIsDuplicateFree(asked, id, pipe.cleanContent(added));
    ReplayIsRepaired(plan, pipe, d, account, asked, id, pipe.cleanContent(added));
    sent := FallsBack(cfg, r, AskingBody(Append, "", added), RepairedBy(pipe, d, account),
                      Terminal("next response", [], None), plan);
  }

  /** The identity records nothing in the opening turn, and the reply's id once the replay has been repaired. */
  function MarksOf(recorded: Mapping): seq<Mark> {
    [Mark(NO_MAPPING, NO_MAPPING, NO_MAPPING), Mark(NO_MAPPING, NO_MAPPING, recorded)]
  }

  lemma RunOfTwo(cfg: Config, first: Turn, second: Turn)
    ensures RunOf(cfg, [first, second][..0]) == START
    ensures RunOf(cfg, [first, second][..1]) == Step(cfg, START, first)
    ensures RunOf(cfg, [first, second]) == Step(cfg, Step(cfg, START, first), second)
  {
    assert [first, second][..1] == [first] && [first][..0] == [];
  }

  lemma TurnTouches(cfg: Config, s: Session, d: Digests, account: Account, turn: Turn, text: string, done: Mapping)
    requires WellSized(d) && Reached(NO_MAPPING, done)
    requires turn.pipe == RepairedBy(turn.pipe, d, account)
    requires turn.message.Some? && turn.message.value.input == Some(ItemArray([Ask(text)]))
    ensures Touches(cfg, d, account, s, turn, NO_MAPPING, Mark(NO_MAPPING, NO_MAPPING, done))
  {
    var clean := turn.pipe.cleanContent(text);
    assert Offered(turn) == [Ask(clean)];
    AskIsKept(d, account, clean);
    ReachedAtOnce(NO_MAPPING);
  }

  lemma RecordingIsReached(d: Digests, account: Account, id: string)
    ensures Reached(NO_MAPPING, Recording(d, account, id))
  {
    var upstream := IdOf(SentItem(d, Some(account), Reply(id), false, {}, {}));
    ReachedAtOnce(NO_MAPPING);
    if Recording(d, account, id) != NO_MAPPING {
      assert [(upstream, id)][..0] == [];
      assert NoteAll(NO_MAPPING, [(upstream, id)]) == Remember(NO_MAPPING, upstream, id);
    }
  }

  lemma TheRunIsThreaded(cfg: Config, pipe: Pipeline, d: Digests, account: Account, asked: string, id: string,
                         added: string)
    requires WellSized(d)
    ensures var repaired := RepairedBy(pipe, d, account);
      Threads(cfg, d, account, [Opening(repaired, asked, id), Appending(repaired, added)],
              MarksOf(Recording(d, account, id)))
  {
    var repaired := RepairedBy(pipe, d, account);
    var turns := [Opening(repaired, asked, id), Appending(repaired, added)];
    var marks := MarksOf(Recording(d, account, id));
    ReachedAtOnce(NO_MAPPING);
    RecordingIsReached(d, account, id);
    TurnTouches(cfg, RunOf(cfg, turns[..0]).session, d, account, turns[0], asked, NO_MAPPING);
    TurnTouches(cfg, RunOf(cfg, turns[..1]).session, d, account, turns[1], added, Recording(d, account, id));
    assert StartOf(cfg, turns, marks, 0) == NO_MAPPING && StartOf(cfg, turns, marks, 1) == NO_MAPPING;
  }

  /** Whatever the digests, the account and the texts: once an upstream has answered an assistant message whose
      id lacks its prefix, and the next turn falls back too, its body is not the intended conversation. */
  lemma FallbackCanDeliverSomethingElse(cfg: Config, pipe: Pipeline, d: Digests, account: Account,
                                        asked: string, id: string, added: string)
    returns (turns: seq<Turn>, marks: seq<Mark>, sent: Delivery)
    requires WellSized(d) && Accepts(cfg, pipe) && Bare(id)
    ensures Threads(cfg, d, account, turns, marks)
    ensures sent in RunOf(cfg, turns).deliveries && sent.generation == 0
    ensures Meant(sent) == [Ask(pipe.cleanContent(asked)), Reply(id), Ask(pipe.cleanContent(added))]
    ensures ItemsOf(sent.body) != Meant(sent)
  {
    var repaired := RepairedBy(pipe, d, account);
    turns := [Opening(repaired, asked, id), Appending(repaired, added)];
    marks := MarksOf(Recording(d, account, id));
    TheRunIsThreaded(cfg, pipe, d, account, asked, id, added);
    OpeningTurn(cfg, pipe, d, account, asked, id);
    RunOfTwo(cfg, turns[0], turns[1]);
    sent := AppendingTurn(cfg, Step(cfg, START, turns[0]), pipe, d, account, pipe.cleanContent(asked), id, added);
    EmptyMappingIsWellFormed();
    FallbackDeliversExactly(cfg, turns, sent, d, Some(account), NO_MAPPING);
    ReplyIsNotPrepared(id);
    assert !Prepared(Meant(sent)[1], false);
  }
}
