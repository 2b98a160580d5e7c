/** What a plan promises, whatever state and message it was made from. */
module TurnProperties {
  import opened Items
  import opened Requests
  import opened Conversation

  ghost predicate PlannedFrom(s: State, limits: Limits, msg: Body, pipe: Pipeline, plan: Plan) {
    PlanTurn(s, limits, Some(msg), pipe) == Ok(plan)
  }

  /** The two bodies of a plan differ only in the conversation they spell out: the replay names no
      response and holds every item, the incremental body names the last response and holds the new ones. */
  lemma BodiesDifferOnlyInTheirConversation(s: State, limits: Limits, msg: Body, pipe: Pipeline, plan: Plan)
    requires PlannedFrom(s, limits, msg, pipe, plan)
    ensures plan.reset == !plan.continuation == !Continues(msg)
    ensures plan.incremental.input == Some(ItemArray(plan.currentInput))
    ensures plan.replay ==
      plan.incremental.(input := Some(ItemArray(Intended(s, plan.reset, plan.currentInput))), previous := None)
    ensures Replayable(limits, plan.replay)
    ensures plan.continuation ==>
      && s.hasCompleted
      && plan.incremental.previous.Some? && JsonString(plan.incremental.previous) == s.lastResponseId
  {
  }

  lemma PlannedInput(s: State, limits: Limits, msg: Body, pipe: Pipeline, plan: Plan)
    requires PlannedFrom(s, limits, msg, pipe, plan)
    requires msg.input.Some? && msg.input.value.ItemArray?
    ensures pipe.sanitize(NormalizeItems(msg.input.value.items, pipe.cleanContent)) == Ok(plan.currentInput)
  {
  }

  /** The new items of a plan are what the repair of some normalised list gave. */
  lemma PlannedItems(s: State, limits: Limits, msg: Body, pipe: Pipeline, plan: Plan) returns (items: seq<Item>)
    requires PlannedFrom(s, limits, msg, pipe, plan)
    ensures pipe.sanitize(items) == Ok(plan.currentInput)
    ensures msg.input.Some? && NormalizeInput(msg.input.value, pipe.cleanContent) == ItemArray(items)
  {
    items := NormalizeInput(msg.input.value, pipe.cleanContent).items;
  }

  /** A continuation is planned only when the new input answers every pending tool call. */
  lemma ContinuationAnswersPendingCalls(s: State, limits: Limits, msg: Body, pipe: Pipeline, plan: Plan)
    requires PlannedFrom(s, limits, msg, pipe, plan) && KeepsToolTraffic(pipe.sanitize)
    requires plan.continuation
    ensures forall id :: id in s.pending ==> id in ToolOutputIds(plan.currentInput)
  {
    if s.pending != [] {
      assert SatisfiesCalls(msg.input, s.pending) by {
        assert Objection(s, msg) == None && Continues(msg);
      }
      var items := msg.input.value.items;
      PlannedInput(s, limits, msg, pipe, plan);
      NormalizingKeepsToolTraffic(items, pipe.cleanContent);
    }
  }

  /* ---- carried settings ---- */

  function Lookup<K, V>(m: map<K, V>, key: K): Option<V> {
    if key in m then Some(m[key]) else None
  }

  /** The message gives the setting itself; null tools count as giving none. */
  predicate Writes(msg: Body, setting: Setting) {
    setting in msg.settings && !(setting.Tools? && msg.settings[setting].Null?)
  }

  ghost predicate Settled(settings: map<Setting, Value>) {
    forall setting :: setting in settings ==>
      && NormalizeSetting(setting, settings[setting]) == settings[setting]
      && !(setting.Tools? && settings[setting].Null?)
  }

  lemma NormalizedSettingsAreSettled(settings: map<Setting, Value>)
    ensures Settled(NormalizeSettings(settings))
  {
    forall setting | setting in settings
      ensures NormalizeSetting(setting, NormalizeSetting(setting, settings[setting])) ==
              NormalizeSetting(setting, settings[setting])
    {
      NormalizingSettingTwice(setting, settings[setting]);
    }
  }

  /** A setting of a plan is what the client wrote, else what the conversation carries into a
      continuation that is silent about it; the injected image tool is not part of it. */
  lemma PlanSettings(s: State, limits: Limits, msg: Body, pipe: Pipeline, plan: Plan, setting: Setting)
    requires PlannedFrom(s, limits, msg, pipe, plan) && Settled(s.settings) && !setting.ParallelToolCalls?
    ensures Lookup(plan.settings, setting) ==
      if Writes(msg, setting) then Some(NormalizeSetting(setting, msg.settings[setting]))
      else if plan.continuation && setting !in msg.settings then Lookup(s.settings, setting)
      else None
    ensures Lookup(plan.settings, ParallelToolCalls) == Some(Flag(true))
    ensures plan.incremental.settings == FinishSettings(plan.settings, pipe)
    ensures Settled(plan.settings)
  {
    var carried := Carry(s, msg).settings;
    assert plan.settings == NormalizeSettings(carried);
    NormalizedSettingsAreSettled(carried);
  }

  lemma PlanInstructions(s: State, limits: Limits, msg: Body, pipe: Pipeline, plan: Plan)
    requires PlannedFrom(s, limits, msg, pipe, plan)
    ensures plan.instructionsSet == msg.instructions.Some?
    ensures plan.incremental.instructions == Some(NormalizeInstructions(
      if msg.instructions.Some? then msg.instructions else if plan.continuation then s.instructions else None))
  {
  }
}
