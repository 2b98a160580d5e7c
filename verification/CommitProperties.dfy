/** What the conversation remembers after a run, in terms of the turns that were committed. */
module CommitProperties {
  import opened Items
  import opened ItemMerge
  import opened MergeGrouping
  import opened Requests
  import opened Conversation
  import opened Sessions
  import opened SessionRuns
  import opened TurnProperties
  import opened RunProperties

  function Init(commits: seq<Commit>): seq<Commit>
    requires commits != []
  {
    commits[..|commits| - 1]
  }

  function Last(commits: seq<Commit>): Commit
    requires commits != []
  {
    commits[|commits| - 1]
  }

  /** The conversation as client and upstream built it: nested merges since the last reset. */
  function HistoryOf(commits: seq<Commit>): seq<Item>
    decreases |commits|, 1
  {
    if commits == [] then [] else Merge(AskedBy(commits), Last(commits).terminal.output)
  }

  /** The conversation the last committed turn was asked with. */
  function AskedBy(commits: seq<Commit>): seq<Item>
    requires commits != []
    decreases |commits|, 0
  {
    var c := Last(commits);
    if c.plan.reset then c.plan.currentInput else Merge(HistoryOf(Init(commits)), c.plan.currentInput)
  }

  /** The setting as the client wrote it most recently since the last reset. */
  function LastWritten(commits: seq<Commit>, setting: Setting): Option<Value> {
    if commits == [] then None
    else
      var c := Last(commits);
      if Writes(c.message, setting) then Some(NormalizeSetting(setting, c.message.settings[setting]))
      else if c.plan.reset then None
      else LastWritten(Init(commits), setting)
  }

  /** The instructions in force: the client's latest, cleared by a blank one; a reset that gives none
      takes what the response echoes. */
  function LastInstructions(commits: seq<Commit>): Option<Value> {
    if commits == [] then None
    else
      var c := Last(commits);
      if c.message.instructions.Some? then
        var value := NormalizeInstructions(c.message.instructions);
        if Substantial(value) then Some(value) else None
      else if c.plan.reset then
        if c.terminal.instructions.Some? && Substantial(c.terminal.instructions.value)
        then c.terminal.instructions else None
      else LastInstructions(Init(commits))
  }

  ghost predicate Remembers(limits: Limits, s: State, commits: seq<Commit>) {
    && s.history == HistoryOf(commits)
    && s.hasCompleted == (commits != [])
    && s.instructions == LastInstructions(commits)
    && Settled(s.settings)
    && (forall setting :: setting != ParallelToolCalls ==> Lookup(s.settings, setting) == LastWritten(commits, setting))
    && (commits != [] ==>
          && Lookup(s.settings, ParallelToolCalls) == Some(Flag(true))
          && s.model == Last(commits).plan.model
          && s.lastResponseId == Last(commits).terminal.id != ""
          && s.lastGeneration == Last(commits).generation
          && s.pending == PendingCalls(Last(commits).terminal.output)
          && Replayable(limits, Last(commits).plan.replay.(input := Some(ItemArray(s.history)))))
  }

  lemma CommitIsRemembered(limits: Limits, s: State, commits: seq<Commit>, pipe: Pipeline, c: Commit)
    requires Remembers(limits, s, commits) && PlannedFrom(s, limits, c.message, pipe, c.plan)
    requires CommitTurn(s, limits, c.plan, Some(c.terminal), c.generation).Ok?
    ensures Remembers(limits, CommitTurn(s, limits, c.plan, Some(c.terminal), c.generation).value, commits + [c])
  {
    var all := commits + [c];
    assert Init(all) == commits && Last(all) == c;
    BodiesDifferOnlyInTheirConversation(s, limits, c.message, pipe, c.plan);
    PlanInstructions(s, limits, c.message, pipe, c.plan);
    SettingsAreRemembered(limits, s, commits, pipe, c);
  }

  lemma SettingsAreRemembered(limits: Limits, s: State, commits: seq<Commit>, pipe: Pipeline, c: Commit)
    requires Remembers(limits, s, commits) && PlannedFrom(s, limits, c.message, pipe, c.plan)
    ensures var settings := (if c.plan.reset then map[] else s.settings) + c.plan.settings;
      && Settled(settings)
      && Lookup(settings, ParallelToolCalls) == Some(Flag(true))
      && forall setting :: setting != ParallelToolCalls ==>
           Lookup(settings, setting) == LastWritten(commits + [c], setting)
  {
    var all := commits + [c];
    assert Init(all) == commits && Last(all) == c;
    BodiesDifferOnlyInTheirConversation(s, limits, c.message, pipe, c.plan);
    PlanSettings(s, limits, c.message, pipe, c.plan, Tools);
    PlanSettings(s, limits, c.message, pipe, c.plan, ToolChoice);
    forall setting | setting != ParallelToolCalls
      ensures Lookup((if c.plan.reset then map[] else s.settings) + c.plan.settings, setting) ==
        LastWritten(all, setting)
    {
      assert setting == Tools || setting == ToolChoice;
    }
  }

  /* ---- runs ---- */

  lemma StepRemembers(cfg: Config, r: Run, t: Turn)
    requires Inv(r) && Remembers(cfg.limits, r.session.conversation, r.commits)
    ensures Remembers(cfg.limits, Step(cfg, r, t).session.conversation, Step(cfg, r, t).commits)
  {
    var ready, sockets, sent := StepDeliversOrIdles(cfg, r, t);
    if sent.Some? {
      DeliveryRemembers(cfg, r, t, ready, sockets, sent.value, Step(cfg, r, t));
    }
  }

  lemma DeliveryRemembers(cfg: Config, r: Run, t: Turn, ready: Session, sockets: map<nat, Socket>, d: Delivery,
                          next: Run)
    requires Delivers(cfg, r, t, ready, sockets, d, next)
    requires Remembers(cfg.limits, r.session.conversation, r.commits)
    ensures Remembers(cfg.limits, next.session.conversation, next.commits)
  {
    CommittedOrNot(cfg, r, t, ready, sockets, d, next);
    if next.commits != r.commits {
      CommitIsRemembered(cfg.limits, d.before, r.commits, t.pipe,
                         Commit(t.message.value, d.plan, t.ending.terminal.value, d.generation));
    }
  }

  /** A delivered turn either commits its response and remembers it, or leaves the conversation alone. */
  lemma CommittedOrNot(cfg: Config, r: Run, t: Turn, ready: Session, sockets: map<nat, Socket>, d: Delivery, next: Run)
    requires Delivers(cfg, r, t, ready, sockets, d, next)
    ensures d.before == r.session.conversation && d.pipe == t.pipe
    ensures next.commits == r.commits ==> next.session.conversation == r.session.conversation
    ensures next.commits != r.commits ==>
      && t.message.Some? && t.ending.Finished? && t.ending.terminal.Some?
      && next.commits == r.commits + [Commit(t.message.value, d.plan, t.ending.terminal.value, d.generation)]
      && CommitTurn(d.before, cfg.limits, d.plan, t.ending.terminal, d.generation) == Ok(next.session.conversation)
  {
    var response := Response(d, t);
    if response.Some? && CommitTurn(d.before, cfg.limits, d.plan, response, d.generation).Ok? {
      assert |next.commits| == |r.commits| + 1;
    }
  }

  lemma {:induction false} EveryRunRemembers(cfg: Config, turns: seq<Turn>)
    ensures Remembers(cfg.limits, RunOf(cfg, turns).session.conversation, RunOf(cfg, turns).commits)
  {
    if turns != [] {
      var before := RunOf(cfg, turns[..|turns| - 1]);
      EveryRunRemembers(cfg, turns[..|turns| - 1]);
      EveryRunKeepsInv(cfg, turns[..|turns| - 1]);
      StepRemembers(cfg, before, turns[|turns| - 1]);
    }
  }

  /** In every reachable state the conversation is the nested merge of the committed turns, and the
      replay rebuilt from it fits the byte limit. */
  lemma EveryCompletedConversationFits(cfg: Config, turns: seq<Turn>)
    requires RunOf(cfg, turns).session.conversation.hasCompleted
    ensures var r := RunOf(cfg, turns);
      && r.commits != []
      && r.session.conversation.history == HistoryOf(r.commits)
      && r.session.conversation.lastResponseId == Last(r.commits).terminal.id
      && Replayable(cfg.limits, Last(r.commits).plan.replay.(input := Some(ItemArray(HistoryOf(r.commits)))))
  {
    EveryRunRemembers(cfg, turns);
  }

  /** A continuation that omits its tools, tool choice or instructions gets those the client wrote last
      since the reset. The image tool is added to the body afterwards, so it is never what is carried. */
  lemma OmittedSettingsAreTheLastWritten(cfg: Config, turns: seq<Turn>, msg: Body, pipe: Pipeline, plan: Plan)
    requires PlannedFrom(RunOf(cfg, turns).session.conversation, cfg.limits, msg, pipe, plan) && plan.continuation
    ensures var commits := RunOf(cfg, turns).commits;
      && (ToolChoice !in msg.settings ==>
            Lookup(plan.incremental.settings, ToolChoice) == LastWritten(commits, ToolChoice))
      && (Tools !in msg.settings ==> Lookup(plan.settings, Tools) == LastWritten(commits, Tools))
      && (Tools !in msg.settings && !pipe.imageToolAllowed ==>
            Lookup(plan.incremental.settings, Tools) == LastWritten(commits, Tools))
      && (msg.instructions.None? ==>
            plan.incremental.instructions == Some(NormalizeInstructions(LastInstructions(commits))))
      && Lookup(plan.incremental.settings, ParallelToolCalls) == Some(Flag(!pipe.lite))
  {
    var s := RunOf(cfg, turns).session.conversation;
    EveryRunRemembers(cfg, turns);
    PlanSettings(s, cfg.limits, msg, pipe, plan, Tools);
    PlanSettings(s, cfg.limits, msg, pipe, plan, ToolChoice);
    PlanInstructions(s, cfg.limits, msg, pipe, plan);
    ImageToolIsNeverDuplicated(plan.settings, pipe.imageToolAllowed);
  }

  /* ---- tool calls and their outputs ---- */

  ghost predicate LawfulTurns(turns: seq<Turn>) {
    forall t :: t in turns ==> KeepsToolTraffic(t.pipe.sanitize)
  }

  /** The calls the upstream emitted since the last reset. */
  function Emitted(commits: seq<Commit>): set<string> {
    if commits == [] then {}
    else
      var c := Last(commits);
      ToolCallIds(c.terminal.output) + (if c.plan.reset then {} else Emitted(Init(commits)))
  }

  /** Everything the client and the upstream contributed since the last reset, in order. */
  function SinceReset(commits: seq<Commit>): seq<Item> {
    if commits == [] then []
    else
      var c := Last(commits);
      (if c.plan.reset then [] else SinceReset(Init(commits))) + c.plan.currentInput + c.terminal.output
  }

  lemma {:induction false} HistoryComesFromTurns(commits: seq<Commit>)
    ensures forall item :: item in HistoryOf(commits) ==> item in SinceReset(commits)
    decreases |commits|
  {
    if commits != [] {
      var c := Last(commits);
      AskedComesFromTurns(commits);
      DedupMembers(AskedBy(commits) + c.terminal.output);
    }
  }

  lemma {:induction false} AskedComesFromTurns(commits: seq<Commit>)
    requires commits != []
    ensures forall item :: item in AskedBy(commits) ==> item in SinceReset(commits)
    decreases |commits|, 0
  {
    var c := Last(commits);
    if !c.plan.reset {
      HistoryComesFromTurns(Init(commits));
      DedupMembers(HistoryOf(Init(commits)) + c.plan.currentInput);
    }
  }

  /** While items under one id agree, the nested merges of a conversation are one merge of everything in it. */
  lemma {:induction false} HistoryIsTheFlatMerge(commits: seq<Commit>)
    requires Compatible(SinceReset(commits))
    ensures HistoryOf(commits) == Dedup(SinceReset(commits))
  {
    if commits == [] {
      DuplicateFreeIsKept([]);
    } else {
      var c, earlier := Last(commits), if Last(commits).plan.reset then [] else SinceReset(Init(commits));
      var asked := earlier + c.plan.currentInput;
      assert SinceReset(commits) == asked + c.terminal.output;
      FewerAreCompatible(SinceReset(commits), asked);
      if c.plan.reset {
        assert asked == c.plan.currentInput;
      } else {
        FewerAreCompatible(SinceReset(commits), earlier);
        HistoryIsTheFlatMerge(Init(commits));
        PrefixMayBeMergedFirst(earlier, c.plan.currentInput);
        assert AskedBy(commits) == Dedup(asked);
        PrefixMayBeMergedFirst(asked, c.terminal.output);
      }
    }
  }

  ghost predicate Accounted(s: State, commits: seq<Commit>) {
    forall id :: id in Emitted(commits) ==> id in ToolOutputIds(s.history) || id in s.pending
  }

  lemma OutputsOfConcatenation(a: seq<Item>, b: seq<Item>)
    ensures ToolOutputIds(a + b) == ToolOutputIds(a) + ToolOutputIds(b)
  {
  }

  lemma FewerAreTheirOwn(items: seq<Item>, fewer: seq<Item>)
    requires OutputIdsAreTheirOwn(items) && forall item :: item in fewer ==> item in items
    ensures OutputIdsAreTheirOwn(fewer)
  {
    forall i, j
      | 0 <= i < |fewer| && 0 <= j < |fewer|
        && IsToolOutput(fewer[i]) && fewer[i].id != ""
        && fewer[j].id == fewer[i].id && fewer[j].callId != ""
      ensures IsToolOutput(fewer[j]) && fewer[j].callId == fewer[i].callId
    {
      assert fewer[i] in fewer && fewer[j] in fewer;
      var k :| 0 <= k < |items| && items[k] == fewer[i];
      var l :| 0 <= l < |items| && items[l] == fewer[j];
      assert IsToolOutput(items[l]) && items[l].callId == items[k].callId;
    }
  }

  lemma CommitIsAccounted(limits: Limits, s: State, commits: seq<Commit>, pipe: Pipeline, c: Commit)
    requires Remembers(limits, s, commits) && PlannedFrom(s, limits, c.message, pipe, c.plan)
    requires !c.plan.reset ==> Accounted(s, commits)
    requires KeepsToolTraffic(pipe.sanitize) && OutputIdsAreTheirOwn(SinceReset(commits + [c]))
    requires CommitTurn(s, limits, c.plan, Some(c.terminal), c.generation).Ok?
    ensures Accounted(CommitTurn(s, limits, c.plan, Some(c.terminal), c.generation).value, commits + [c])
  {
    var all, current, output := commits + [c], c.plan.currentInput, c.terminal.output;
    assert Init(all) == commits && Last(all) == c;
    var asked := Intended(s, c.plan.reset, current);
    assert asked == AskedBy(all);
    PendingCallsAreTheToolCalls(output);
    AskedComesFromTurns(all);
    FewerAreTheirOwn(SinceReset(all), asked + output);
    MergeKeepsToolOutputs(asked + output);
    OutputsOfConcatenation(asked, output);
    if !c.plan.reset {
      HistoryComesFromTurns(commits);
      FewerAreTheirOwn(SinceReset(all), s.history + current);
      MergeKeepsToolOutputs(s.history + current);
      OutputsOfConcatenation(s.history, current);
      BodiesDifferOnlyInTheirConversation(s, limits, c.message, pipe, c.plan);
      ContinuationAnswersPendingCalls(s, limits, c.message, pipe, c.plan);
    }
  }

  /** Either the conversation is accounted for, or an id collision has happened since the last reset. */
  ghost predicate AccountedIfOwn(r: Run) {
    OutputIdsAreTheirOwn(SinceReset(r.commits)) ==> Accounted(r.session.conversation, r.commits)
  }

  lemma StepAccounts(cfg: Config, r: Run, t: Turn)
    requires Inv(r) && Remembers(cfg.limits, r.session.conversation, r.commits)
    requires AccountedIfOwn(r) && KeepsToolTraffic(t.pipe.sanitize)
    ensures AccountedIfOwn(Step(cfg, r, t))
  {
    var ready, sockets, sent := StepDeliversOrIdles(cfg, r, t);
    if sent.Some? {
      DeliveryAccounts(cfg, r, t, ready, sockets, sent.value, Step(cfg, r, t));
    }
  }

  lemma DeliveryAccounts(cfg: Config, r: Run, t: Turn, ready: Session, sockets: map<nat, Socket>, d: Delivery,
                         next: Run)
    requires Delivers(cfg, r, t, ready, sockets, d, next)
    requires Remembers(cfg.limits, r.session.conversation, r.commits) && AccountedIfOwn(r)
    requires KeepsToolTraffic(t.pipe.sanitize)
    ensures AccountedIfOwn(next)
  {
    CommittedOrNot(cfg, r, t, ready, sockets, d, next);
    if next.commits != r.commits && OutputIdsAreTheirOwn(SinceReset(next.commits)) {
      var c := Commit(t.message.value, d.plan, t.ending.terminal.value, d.generation);
      assert Init(next.commits) == r.commits && Last(next.commits) == c;
      if !c.plan.reset {
        FewerAreTheirOwn(SinceReset(next.commits), SinceReset(r.commits));
      }
      CommitIsAccounted(cfg.limits, d.before, r.commits, t.pipe, c);
    }
  }

  lemma {:induction false} EveryRunAccounts(cfg: Config, turns: seq<Turn>)
    requires LawfulTurns(turns)
    ensures AccountedIfOwn(RunOf(cfg, turns))
  {
    if turns != [] {
      var earlier := turns[..|turns| - 1];
      EveryRunAccounts(cfg, earlier);
      EveryRunRemembers(cfg, earlier);
      EveryRunKeepsInv(cfg, earlier);
      StepAccounts(cfg, RunOf(cfg, earlier), turns[|turns| - 1]);
    }
  }

  /** Every tool call the upstream emitted since the last reset has its output in the history or is
      still demanded from the next continuation, unless since then another item with a call id shared
      the id of a tool output. */
  lemma EmittedCallsAreAnsweredOrPending(cfg: Config, turns: seq<Turn>)
    requires LawfulTurns(turns) && OutputIdsAreTheirOwn(SinceReset(RunOf(cfg, turns).commits))
    ensures Accounted(RunOf(cfg, turns).session.conversation, RunOf(cfg, turns).commits)
  {
    EveryRunAccounts(cfg, turns);
  }

  /** In particular with distinct ids. */
  lemma DistinctIdsAccountForEveryCall(cfg: Config, turns: seq<Turn>)
    requires LawfulTurns(turns) && DistinctIds(SinceReset(RunOf(cfg, turns).commits))
    ensures Accounted(RunOf(cfg, turns).session.conversation, RunOf(cfg, turns).commits)
  {
    DistinctIdsAreTheirOwn(SinceReset(RunOf(cfg, turns).commits));
    EmittedCallsAreAnsweredOrPending(cfg, turns);
  }
}
