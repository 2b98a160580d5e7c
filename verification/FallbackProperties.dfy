/** The HTTP fallback prepares a body that was already prepared for the WebSocket. */
module FallbackProperties {
  import opened Items
  import opened Requests
  import opened Conversation
  import opened SessionRuns
  import opened Sessions
  import opened TurnProperties
  import opened RunProperties
  import opened Identity
  import opened InputItems
  import opened InputItemProperties

  lemma {:induction false} PresentMembers(out: seq<Option<Item>>)
    ensures forall item :: item in Present(out) ==> Some(item) in out
  {
    if out != [] {
      PresentMembers(out[..|out| - 1]);
    }
  }

  lemma RepairedItemsArePrepared(items: seq<Item>, repaired: seq<Item>, d: Digests, account: Option<Account>,
                                 mapping: Mapping)
    requires WellSized(d) && WellFormed(mapping) && Sanitizer(d, account, mapping)(items) == Ok(repaired)
    ensures forall item :: item in repaired ==> Prepared(item, false)
  {
    var out := Through(d, account, items, false, mapping, |items|).out;
    PresentMembers(out);
    forall item | item in repaired
      ensures Prepared(item, false)
    {
      var i :| 0 <= i < |out| && out[i] == Some(item);
      SanitizedItemsArePrepared(d, account, items, false, mapping, i);
    }
  }

  /** The second preparation, with whatever mappings the identity has by then, leaves every item of the
      current turn as the first one made it, and does not add a second image tool. */
  lemma FallbackLeavesTheCurrentTurnAlone(s: State, limits: Limits, msg: Body, pipe: Pipeline, plan: Plan,
                                          d: Digests, account: Option<Account>, first: Mapping, second: Mapping)
    requires PlannedFrom(s, limits, msg, pipe, plan) && WellSized(d) && WellFormed(first)
    requires pipe.sanitize == Sanitizer(d, account, first) && pipe.resanitize == Sanitizer(d, account, second)
    requires HttpBody(plan.replay, pipe).Ok?
    ensures var replayed := Intended(s, plan.reset, plan.currentInput);
      var out := Through(d, account, replayed, false, second, |replayed|).out;
      && HttpBody(plan.replay, pipe).value.input == Some(ItemArray(Present(out)))
      && forall i :: 0 <= i < |replayed| && replayed[i] in plan.currentInput ==> out[i] == Some(replayed[i])
    ensures Lookup(HttpBody(plan.replay, pipe).value.settings, Tools) == Lookup(plan.replay.settings, Tools)
  {
    BodiesDifferOnlyInTheirConversation(s, limits, msg, pipe, plan);
    CurrentItemsArePrepared(s, limits, msg, pipe, plan, d, account, first);
    var replayed := Intended(s, plan.reset, plan.currentInput);
    HttpItemsAreRepaired(plan.replay, pipe, d, account, second, replayed);
    forall i | 0 <= i < |replayed| && replayed[i] in plan.currentInput
      ensures Through(d, account, replayed, false, second, |replayed|).out[i] == Some(replayed[i])
    {
      PreparedItemsStay(d, account, replayed, false, second, i);
    }
    ToolsAreFinishedOnce(s, limits, msg, pipe, plan);
  }

  lemma CurrentItemsArePrepared(s: State, limits: Limits, msg: Body, pipe: Pipeline, plan: Plan,
                                d: Digests, account: Option<Account>, first: Mapping)
    requires PlannedFrom(s, limits, msg, pipe, plan) && WellSized(d) && WellFormed(first)
    requires pipe.sanitize == Sanitizer(d, account, first)
    ensures forall item :: item in plan.currentInput ==> Prepared(item, false)
  {
    var items := PlannedItems(s, limits, msg, pipe, plan);
    RepairedItemsArePrepared(items, plan.currentInput, d, account, first);
  }

  lemma HttpItemsAreRepaired(body: Body, pipe: Pipeline, d: Digests, account: Option<Account>, second: Mapping,
                             items: seq<Item>)
    requires body.input == Some(ItemArray(items)) && pipe.resanitize == Sanitizer(d, account, second)
    requires HttpBody(body, pipe).Ok?
    ensures HttpBody(body, pipe).value.input ==
      Some(ItemArray(Present(Through(d, account, items, false, second, |items|).out)))
  {
    assert pipe.resanitize(items).Ok?;
  }

  lemma ToolsAreFinishedOnce(s: State, limits: Limits, msg: Body, pipe: Pipeline, plan: Plan)
    requires PlannedFrom(s, limits, msg, pipe, plan) && HttpBody(plan.replay, pipe).Ok?
    ensures Lookup(HttpBody(plan.replay, pipe).value.settings, Tools) == Lookup(plan.replay.settings, Tools)
  {
    BodiesDifferOnlyInTheirConversation(s, limits, msg, pipe, plan);
    assert plan.replay.settings == FinishSettings(plan.settings, pipe);
    FinishedTwice(plan.settings, pipe);
  }

  lemma FinishedTwice(settings: map<Setting, Value>, pipe: Pipeline)
    ensures var once := FinishSettings(settings, pipe);
      Lookup(HttpSettings(once, pipe), Tools) == Lookup(once, Tools)
  {
    var tooled := EnsureImageTool(settings, pipe.imageToolAllowed);
    var once := FinishSettings(settings, pipe);
    ImageToolIsNeverDuplicated(settings, pipe.imageToolAllowed);
    assert HasImageTool(tooled) == HasImageTool(once);
    assert EnsureImageTool(once, pipe.imageToolAllowed) == once;
  }

  /* ---- over whole runs ---- */

  ghost predicate AllPrepared(items: seq<Item>) {
    forall i :: 0 <= i < |items| ==> Prepared(items[i], false)
  }

  /** In every run, the body of an HTTP fallback delivers exactly the intended conversation if and only if
      nothing in that conversation is left to repair. In any case it names no previous response and
      carries the same tool calls and tool outputs. */
  lemma FallbackDeliversExactly(cfg: Config, turns: seq<Turn>, d: Delivery, digests: Digests,
                                account: Option<Account>, second: Mapping)
    requires d in RunOf(cfg, turns).deliveries && d.generation == 0
    requires WellSized(digests) && WellFormed(second) && d.pipe.resanitize == Sanitizer(digests, account, second)
    ensures ItemsOf(d.body) == Meant(d) <==> AllPrepared(Meant(d))
    ensures d.body.previous.None?
    ensures ToolCallIds(ItemsOf(d.body)) == ToolCallIds(Meant(d))
    ensures ToolOutputIds(ItemsOf(d.body)) == ToolOutputIds(Meant(d))
  {
    EverySentBodyDenotesTheConversation(cfg, turns, d);
    PreparedArraysAreTheFixedPoints(digests, account, Meant(d), false, second);
    SanitizingKeepsToolTraffic(digests, account, Meant(d), false, second);
  }

  lemma ReplayDeliversTheCurrentTurn(limits: Limits, msg: Body, d: Delivery, digests: Digests, account: Option<Account>,
                                     first: Mapping, second: Mapping)
    requires PlannedFrom(d.before, limits, msg, d.pipe, d.plan) && HttpBody(d.plan.replay, d.pipe) == Ok(d.body)
    requires WellSized(digests) && WellFormed(first)
    requires d.pipe.sanitize == Sanitizer(digests, account, first)
    requires d.pipe.resanitize == Sanitizer(digests, account, second)
    ensures var out := Through(digests, account, Meant(d), false, second, |Meant(d)|).out;
      && ItemsOf(d.body) == Present(out)
      && forall i :: 0 <= i < |Meant(d)| && Meant(d)[i] in d.plan.currentInput ==> out[i] == Some(Meant(d)[i])
    ensures Lookup(d.body.settings, Tools) == Lookup(d.plan.replay.settings, Tools)
  {
    FallbackLeavesTheCurrentTurnAlone(d.before, limits, msg, d.pipe, d.plan, digests, account, first, second);
  }

  lemma HttpDeliveryWasPlanned(cfg: Config, turns: seq<Turn>, d: Delivery) returns (msg: Body)
    requires d in RunOf(cfg, turns).deliveries && d.generation == 0
    ensures PlannedFrom(d.before, cfg.limits, msg, d.pipe, d.plan) && HttpBody(d.plan.replay, d.pipe) == Ok(d.body)
  {
    EveryDeliveryWasPlanned(cfg, turns, d);
    msg :| PlannedFrom(d.before, cfg.limits, msg, d.pipe, d.plan);
  }

  /** In every run, whatever else it repairs, a fallback delivers each item of the current turn unchanged. */
  lemma FallbackDeliversTheCurrentTurn(cfg: Config, turns: seq<Turn>, d: Delivery, digests: Digests,
                                       account: Option<Account>, first: Mapping, second: Mapping)
    requires d in RunOf(cfg, turns).deliveries && d.generation == 0
    requires WellSized(digests) && WellFormed(first)
    requires d.pipe.sanitize == Sanitizer(digests, account, first)
    requires d.pipe.resanitize == Sanitizer(digests, account, second)
    ensures var out := Through(digests, account, Meant(d), false, second, |Meant(d)|).out;
      && ItemsOf(d.body) == Present(out)
      && forall i :: 0 <= i < |Meant(d)| && Meant(d)[i] in d.plan.currentInput ==> out[i] == Some(Meant(d)[i])
    ensures Lookup(d.body.settings, Tools) == Lookup(d.plan.replay.settings, Tools)
  {
    var msg := HttpDeliveryWasPlanned(cfg, turns, d);
    ReplayDeliversTheCurrentTurn(cfg.limits, msg, d, digests, account, first, second);
  }
}
