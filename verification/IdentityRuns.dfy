/** Whole runs with the real repair: one identity is threaded through the turns of a conversation. */
module IdentityRuns {
  import opened Items
  import opened ItemMerge
  import opened MergeGrouping
  import opened Requests
  import opened Conversation
  import opened Sessions
  import opened SessionRuns
  import opened RunProperties
  import opened CommitProperties
  import opened Escaping
  import opened Identity
  import opened RoundTrip
  import opened InputItems
  import opened InputItemProperties
  import opened FallbackProperties

  /* ---- recording any number of values ---- */

  function NoteAll(mapping: Mapping, notes: seq<(string, string)>): Mapping {
    if notes == [] then mapping
    else
      var last := notes[|notes| - 1];
      Remember(NoteAll(mapping, notes[..|notes| - 1]), last.0, last.1)
  }

  ghost predicate Reached(from: Mapping, to: Mapping) {
    exists notes :: NoteAll(from, notes) == to
  }

  lemma {:induction false} NotesOnlyExtend(mapping: Mapping, notes: seq<(string, string)>)
    requires WellFormed(mapping)
    ensures WellFormed(NoteAll(mapping, notes)) && Extends(NoteAll(mapping, notes), mapping)
  {
    if notes != [] {
      var init, last := notes[..|notes| - 1], notes[|notes| - 1];
      NotesOnlyExtend(mapping, init);
      RememberExtends(NoteAll(mapping, init), last.0, last.1);
      ExtendsTransitive(mapping, NoteAll(mapping, init), NoteAll(mapping, notes));
    }
  }

  lemma ReachedExtends(from: Mapping, to: Mapping)
    requires WellFormed(from) && Reached(from, to)
    ensures WellFormed(to) && Extends(to, from)
  {
    var notes :| NoteAll(from, notes) == to;
    NotesOnlyExtend(from, notes);
  }

  /* ---- the identity along a run ---- */

  /** The mapping of the identity a turn works with: when its input is repaired, when the HTTP route repairs the
      replay, and when the turn is over. Session ids, metadata and headers may be recorded at any point. */
  datatype Mark = Mark(noted: Mapping, again: Mapping, done: Mapping)

  /** The items a message hands to the repair. */
  function Offered(t: Turn): seq<Item> {
    if t.message.None? || t.message.value.input.None? then []
    else
      var input := NormalizeInput(t.message.value.input.value, t.pipe.cleanContent);
      if input.ItemArray? then input.items else []
  }

  ghost function AfterRepair(d: Digests, account: Account, t: Turn, mark: Mark): Mapping {
    Through(d, Some(account), Offered(t), false, mark.noted, |Offered(t)|).mapping
  }

  ghost predicate Touches(cfg: Config, d: Digests, account: Account, s: Session, t: Turn, start: Mapping, mark: Mark) {
    && t.pipe.sanitize == Sanitizer(d, Some(account), mark.noted)
    && t.pipe.resanitize == Sanitizer(d, Some(account), mark.again)
    && Reached(start, mark.noted)
    && Reached(if Planned(cfg, s, t).Some? then AfterRepair(d, account, t, mark) else mark.noted, mark.again)
    && Reached(mark.again, mark.done)
  }

  /** The first commit keeps the identity of its turn; until then every turn makes a new one. */
  function StartOf(cfg: Config, turns: seq<Turn>, marks: seq<Mark>, i: nat): Mapping
    requires |marks| == |turns| && i < |turns|
  {
    if i > 0 && RunOf(cfg, turns[..i]).session.conversation.hasCompleted then marks[i - 1].done else NO_MAPPING
  }

  ghost predicate Threads(cfg: Config, d: Digests, account: Account, turns: seq<Turn>, marks: seq<Mark>) {
    && |marks| == |turns|
    && forall i :: 0 <= i < |turns| ==>
         Touches(cfg, d, account, RunOf(cfg, turns[..i]).session, turns[i], StartOf(cfg, turns, marks, i), marks[i])
  }

  lemma TouchingExtends(cfg: Config, d: Digests, account: Account, s: Session, t: Turn, start: Mapping, mark: Mark)
    requires Touches(cfg, d, account, s, t, start, mark) && WellSized(d) && WellFormed(start)
    ensures WellFormed(mark.noted) && WellFormed(mark.again) && WellFormed(mark.done)
    ensures Extends(mark.done, start)
    ensures Planned(cfg, s, t).Some? ==> Extends(mark.done, AfterRepair(d, account, t, mark))
  {
    ReachedExtends(start, mark.noted);
    ThroughPlaces(d, Some(account), Offered(t), false, mark.noted, |Offered(t)|);
    var repaired := if Planned(cfg, s, t).Some? then AfterRepair(d, account, t, mark) else mark.noted;
    ReachedExtends(repaired, mark.again);
    ReachedExtends(mark.again, mark.done);
    ExtendsTransitive(start, mark.noted, repaired);
    ExtendsTransitive(start, repaired, mark.again);
    ExtendsTransitive(start, mark.again, mark.done);
    ExtendsTransitive(repaired, mark.again, mark.done);
  }

  /** In every run the mapping stays within its budget and its books stay exact. */
  lemma {:induction false} MappingsStayWellFormed(cfg: Config, d: Digests, account: Account, turns: seq<Turn>,
                                                  marks: seq<Mark>, i: nat)
    requires Threads(cfg, d, account, turns, marks) && WellSized(d) && i < |turns|
    ensures WellFormed(StartOf(cfg, turns, marks, i)) && WellFormed(marks[i].noted)
    ensures WellFormed(marks[i].again) && WellFormed(marks[i].done)
  {
    EmptyMappingIsWellFormed();
    if i > 0 {
      MappingsStayWellFormed(cfg, d, account, turns, marks, i - 1);
    }
    TouchingExtends(cfg, d, account, RunOf(cfg, turns[..i]).session, turns[i], StartOf(cfg, turns, marks, i), marks[i]);
  }

  lemma StepKeepsCompletion(cfg: Config, turns: seq<Turn>, i: nat)
    requires i < |turns| && RunOf(cfg, turns[..i]).session.conversation.hasCompleted
    ensures RunOf(cfg, turns[..i + 1]).session.conversation.hasCompleted
  {
    RunOfOneMore(cfg, turns, i);
    var r := RunOf(cfg, turns[..i]);
    EveryRunKeepsInv(cfg, turns[..i]);
    EveryRunRemembers(cfg, turns[..i]);
    EveryRunRemembers(cfg, turns[..i + 1]);
    var ready, sockets, sent := StepDeliversOrIdles(cfg, r, turns[i]);
    if sent.Some? {
      CommittedOrNot(cfg, r, turns[i], ready, sockets, sent.value, Step(cfg, r, turns[i]));
    }
  }

  lemma MarkExtendsItsStart(cfg: Config, d: Digests, account: Account, turns: seq<Turn>, marks: seq<Mark>, i: nat)
    requires Threads(cfg, d, account, turns, marks) && WellSized(d) && i < |turns|
    ensures Extends(marks[i].done, StartOf(cfg, turns, marks, i))
  {
    MappingsStayWellFormed(cfg, d, account, turns, marks, i);
    TouchingExtends(cfg, d, account, RunOf(cfg, turns[..i]).session, turns[i], StartOf(cfg, turns, marks, i), marks[i]);
  }

  lemma {:induction false} CompletionStays(cfg: Config, turns: seq<Turn>, i: nat, j: nat)
    requires i <= j <= |turns| && RunOf(cfg, turns[..i]).session.conversation.hasCompleted
    ensures RunOf(cfg, turns[..j]).session.conversation.hasCompleted
    decreases j
  {
    if i < j {
      CompletionStays(cfg, turns, i, j - 1);
      StepKeepsCompletion(cfg, turns, j - 1);
    }
  }

  lemma {:induction false} ChainExtends(marks: seq<Mark>, i: nat, j: nat)
    requires i <= j < |marks|
    requires forall k :: i < k <= j ==> Extends(marks[k].done, marks[k - 1].done)
    ensures Extends(marks[j].done, marks[i].done)
    decreases j
  {
    if i < j {
      ChainExtends(marks, i, j - 1);
      ExtendsTransitive(marks[i].done, marks[j - 1].done, marks[j].done);
    }
  }

  /** Once a turn has been committed its identity stays, and its mapping only extends. */
  lemma MappingsOnlyExtend(cfg: Config, d: Digests, account: Account, turns: seq<Turn>, marks: seq<Mark>, i: nat,
                           j: nat)
    requires Threads(cfg, d, account, turns, marks) && WellSized(d) && i <= j < |turns|
    requires RunOf(cfg, turns[..i + 1]).session.conversation.hasCompleted
    ensures Extends(marks[j].done, marks[i].done)
  {
    forall k | i < k <= j
      ensures Extends(marks[k].done, marks[k - 1].done)
    {
      NextMarkExtends(cfg, d, account, turns, marks, i, k);
    }
    ChainExtends(marks, i, j);
  }

  lemma NextMarkExtends(cfg: Config, d: Digests, account: Account, turns: seq<Turn>, marks: seq<Mark>, i: nat, k: nat)
    requires Threads(cfg, d, account, turns, marks) && WellSized(d) && i < k < |turns|
    requires RunOf(cfg, turns[..i + 1]).session.conversation.hasCompleted
    ensures Extends(marks[k].done, marks[k - 1].done)
  {
    CompletionStays(cfg, turns, i + 1, k);
    MarkExtendsItsStart(cfg, d, account, turns, marks, k);
  }

  /* ---- every run has such a thread ---- */

  lemma ReachedAtOnce(mapping: Mapping)
    ensures Reached(mapping, mapping)
  {
    assert NoteAll(mapping, []) == mapping;
  }

  /** Planning does not depend on the second preparation. */
  lemma PlannedIgnoresResanitize(cfg: Config, s: Session, t: Turn, resanitize: seq<Item> -> Result<seq<Item>, Error>)
    ensures Planned(cfg, s, t.(pipe := t.pipe.(resanitize := resanitize))).Some? == Planned(cfg, s, t).Some?
  {
  }

  /** Any threaded run goes on with any turn, repaired by the identity as the run left it. */
  lemma AnyTurnMayFollow(cfg: Config, d: Digests, account: Account, turns: seq<Turn>, marks: seq<Mark>, t: Turn)
    returns (next: Turn, mark: Mark)
    requires Threads(cfg, d, account, turns, marks)
    ensures Threads(cfg, d, account, turns + [next], marks + [mark])
    ensures next == t.(pipe := t.pipe.(sanitize := next.pipe.sanitize, resanitize := next.pipe.resanitize))
  {
    var n, s := |turns|, RunOf(cfg, turns).session;
    var start := if n > 0 && s.conversation.hasCompleted then marks[n - 1].done else NO_MAPPING;
    next, mark := ThreadOne(cfg, d, account, s, t, start);
    var all, longer := turns + [next], marks + [mark];
    forall i | 0 <= i < |all|
      ensures Touches(cfg, d, account, RunOf(cfg, all[..i]).session, all[i], StartOf(cfg, all, longer, i), longer[i])
    {
      if i < n {
        EarlierTouchesStay(cfg, d, account, turns, marks, next, mark, i);
      } else {
        LastTouches(cfg, d, account, turns, marks, next, mark);
      }
    }
  }

  lemma LastTouches(cfg: Config, d: Digests, account: Account, turns: seq<Turn>, marks: seq<Mark>, next: Turn,
                    mark: Mark)
    requires |marks| == |turns|
    requires var s := RunOf(cfg, turns).session;
      Touches(cfg, d, account, s, next,
              if turns != [] && s.conversation.hasCompleted then marks[|turns| - 1].done else NO_MAPPING, mark)
    ensures var all, longer, n := turns + [next], marks + [mark], |turns|;
      Touches(cfg, d, account, RunOf(cfg, all[..n]).session, all[n], StartOf(cfg, all, longer, n), longer[n])
  {
    assert (turns + [next])[..|turns|] == turns;
  }

  lemma EarlierTouchesStay(cfg: Config, d: Digests, account: Account, turns: seq<Turn>, marks: seq<Mark>, next: Turn,
                           mark: Mark, i: nat)
    requires Threads(cfg, d, account, turns, marks) && i < |turns|
    ensures var all, longer := turns + [next], marks + [mark];
      Touches(cfg, d, account, RunOf(cfg, all[..i]).session, all[i], StartOf(cfg, all, longer, i), longer[i])
  {
    assert (turns + [next])[..i] == turns[..i];
  }

  lemma ThreadOne(cfg: Config, d: Digests, account: Account, s: Session, t: Turn, start: Mapping)
    returns (next: Turn, mark: Mark)
    ensures Touches(cfg, d, account, s, next, start, mark)
    ensures next == t.(pipe := t.pipe.(sanitize := next.pipe.sanitize, resanitize := next.pipe.resanitize))
  {
    var first := t.(pipe := t.pipe.(sanitize := Sanitizer(d, Some(account), start)));
    var repaired := Through(d, Some(account), Offered(t), false, start, |Offered(t)|).mapping;
    var again := if Planned(cfg, s, first).Some? then repaired else start;
    next := first.(pipe := first.pipe.(resanitize := Sanitizer(d, Some(account), again)));
    mark := Mark(start, again, again);
    PlannedIgnoresResanitize(cfg, s, first, Sanitizer(d, Some(account), again));
    assert Offered(next) == Offered(t);
    ReachedAtOnce(start);
    ReachedAtOnce(again);
  }

  /* ---- ids stay restorable ---- */

  /** What turn `i` of the run sent for item `k` of its input. */
  ghost function SentIn(d: Digests, account: Account, t: Turn, mark: Mark, k: nat): string
    requires k < |Offered(t)|
  {
    IdOf(Through(d, Some(account), Offered(t), false, mark.noted, |Offered(t)|).out[k])
  }

  /** An id that was rewritten in a planned turn whose identity stayed is restored to the client's in every
      later turn of the conversation, wherever the upstream repeats it as a JSON string. */
  lemma RewrittenIdsStayRestorable(cfg: Config, d: Digests, account: Account, turns: seq<Turn>, marks: seq<Mark>,
                                   i: nat, j: nat, k: nat, a: string, b: string)
    requires Threads(cfg, d, account, turns, marks) && WellSized(d) && i <= j < |turns|
    requires Planned(cfg, RunOf(cfg, turns[..i]).session, turns[i]).Some?
    requires RunOf(cfg, turns[..i + 1]).session.conversation.hasCompleted
    requires k < |Offered(turns[i])| && MayPrecedeLiteral(a)
    requires SentIn(d, account, turns[i], marks[i], k) !in {"", Offered(turns[i])[k].id}
    ensures var reverse, sent := marks[j].done.reverse, SentIn(d, account, turns[i], marks[i], k);
      Expose(reverse, a + (QUOTE + (Escape(sent) + QUOTE + b))) ==
      Expose(reverse, a) + (QUOTE + (Escape(Offered(turns[i])[k].id) + Expose(reverse, QUOTE + b)))
  {
    var items, sent := Offered(turns[i]), SentIn(d, account, turns[i], marks[i], k);
    MappingsStayWellFormed(cfg, d, account, turns, marks, i);
    MappingsStayWellFormed(cfg, d, account, turns, marks, j);
    RewrittenIdIsRecorded(cfg, d, account, RunOf(cfg, turns[..i]).session, turns[i], marks[i], k);
    TouchingExtends(cfg, d, account, RunOf(cfg, turns[..i]).session, turns[i], StartOf(cfg, turns, marks, i), marks[i]);
    MappingsOnlyExtend(cfg, d, account, turns, marks, i, j);
    assert sent in marks[j].done.reverse && marks[j].done.reverse[sent] == items[k].id;
    RecordedIdIsRestored(marks[j].done.reverse, a, sent, b);
  }

  lemma RewrittenIdIsRecorded(cfg: Config, d: Digests, account: Account, s: Session, t: Turn, mark: Mark, k: nat)
    requires Planned(cfg, s, t).Some? && t.pipe.sanitize == Sanitizer(d, Some(account), mark.noted)
    requires WellSized(d) && WellFormed(mark.noted) && k < |Offered(t)|
    requires SentIn(d, account, t, mark, k) !in {"", Offered(t)[k].id}
    ensures var mapping, sent := AfterRepair(d, account, t, mark), SentIn(d, account, t, mark, k);
      sent in mapping.reverse && mapping.reverse[sent] == Offered(t)[k].id
  {
    var items := Offered(t);
    PlannedOffers(cfg, s, t);
    ThroughPlaces(d, Some(account), items, false, mark.noted, |items|);
    var p := Through(d, Some(account), items, false, mark.noted, |items|);
    assert Placed(Some(account), items[k], p.out[k], false, Reserved(items), p.mapping);
  }

  /** A planned turn repaired exactly the items it was offered. */
  lemma PlannedOffers(cfg: Config, s: Session, t: Turn)
    requires Planned(cfg, s, t).Some?
    ensures t.pipe.sanitize(Offered(t)) == Ok(Planned(cfg, s, t).value.currentInput)
  {
  }

  /* ---- what the real repair gives the runs ---- */

  lemma ThreadedTurnsAreLawful(cfg: Config, d: Digests, account: Account, turns: seq<Turn>, marks: seq<Mark>)
    requires Threads(cfg, d, account, turns, marks) && WellSized(d)
    ensures LawfulTurns(turns)
  {
    forall t | t in turns
      ensures KeepsToolTraffic(t.pipe.sanitize)
    {
      var i :| 0 <= i < |turns| && turns[i] == t;
      SanitizerKeepsToolTraffic(d, Some(account), marks[i].noted);
    }
  }

  /** With the real repair, and distinct item ids since the last reset, every emitted tool call is answered
      or still demanded. */
  lemma ThreadedRunsAccountForEveryCall(cfg: Config, d: Digests, account: Account, turns: seq<Turn>, marks: seq<Mark>)
    requires Threads(cfg, d, account, turns, marks) && WellSized(d)
    requires DistinctIds(SinceReset(RunOf(cfg, turns).commits))
    ensures Accounted(RunOf(cfg, turns).session.conversation, RunOf(cfg, turns).commits)
  {
    ThreadedTurnsAreLawful(cfg, d, account, turns, marks);
    DistinctIdsAccountForEveryCall(cfg, turns);
  }

  /* ---- what a fallback delivers ---- */

  /** The turn in which a body was sent. */
  lemma {:induction false} DeliveryTurn(cfg: Config, turns: seq<Turn>, sent: Delivery) returns (i: nat)
    requires sent in RunOf(cfg, turns).deliveries
    ensures i < |turns| && Planned(cfg, RunOf(cfg, turns[..i]).session, turns[i]) == Some(sent.plan)
    ensures sent.before == RunOf(cfg, turns[..i]).session.conversation && sent.pipe == turns[i].pipe
    ensures RunOf(cfg, turns[..i]).commits <= RunOf(cfg, turns).commits
  {
    var earlier, t := turns[..|turns| - 1], turns[|turns| - 1];
    var before := RunOf(cfg, earlier);
    EveryRunKeepsInv(cfg, earlier);
    CommitsOnlyGrow(cfg, before, t);
    if sent in before.deliveries {
      i := DeliveryTurn(cfg, earlier, sent);
      assert earlier[..i] == turns[..i];
    } else {
      i := |turns| - 1;
      NewDelivery(cfg, before, t, sent);
    }
  }

  lemma CommitsOnlyGrow(cfg: Config, r: Run, t: Turn)
    requires Inv(r)
    ensures r.commits <= Step(cfg, r, t).commits
  {
    var ready, sockets, sent := StepDeliversOrIdles(cfg, r, t);
    if sent.Some? {
      CommittedOrNot(cfg, r, t, ready, sockets, sent.value, Step(cfg, r, t));
    }
  }

  lemma NewDelivery(cfg: Config, r: Run, t: Turn, sent: Delivery)
    requires Inv(r) && sent in Step(cfg, r, t).deliveries && sent !in r.deliveries
    ensures Planned(cfg, r.session, t) == Some(sent.plan)
    ensures sent.before == r.session.conversation && sent.pipe == t.pipe
  {
    var ready, sockets, d := StepDeliversOrIdles(cfg, r, t);
    assert sent == d.value;
  }

  ghost predicate InputsPrepared(commits: seq<Commit>) {
    forall c, item :: c in commits && item in c.plan.currentInput ==> Prepared(item, false)
  }

  lemma ThreadsOfPrefix(cfg: Config, d: Digests, account: Account, turns: seq<Turn>, marks: seq<Mark>, i: nat)
    requires Threads(cfg, d, account, turns, marks) && i <= |turns|
    ensures Threads(cfg, d, account, turns[..i], marks[..i])
  {
    forall k | 0 <= k < i
      ensures Touches(cfg, d, account, RunOf(cfg, turns[..i][..k]).session, turns[..i][k],
                      StartOf(cfg, turns[..i], marks[..i], k), marks[..i][k])
    {
      assert turns[..i][..k] == turns[..k];
      assert Touches(cfg, d, account, RunOf(cfg, turns[..k]).session, turns[k],
                     StartOf(cfg, turns, marks, k), marks[k]);
    }
  }

  /** Every input that was committed had been repaired. */
  lemma {:induction false} CommittedInputsArePrepared(cfg: Config, d: Digests, account: Account, turns: seq<Turn>,
                                                      marks: seq<Mark>)
    requires Threads(cfg, d, account, turns, marks) && WellSized(d)
    ensures InputsPrepared(RunOf(cfg, turns).commits)
  {
    if turns != [] {
      var n := |turns| - 1;
      ThreadsOfPrefix(cfg, d, account, turns, marks, n);
      CommittedInputsArePrepared(cfg, d, account, turns[..n], marks[..n]);
      MappingsStayWellFormed(cfg, d, account, turns, marks, n);
      EveryRunKeepsInv(cfg, turns[..n]);
      StepCommitsPrepared(cfg, d, account, RunOf(cfg, turns[..n]), turns[n], marks[n].noted);
    }
  }

  lemma StepCommitsPrepared(cfg: Config, d: Digests, account: Account, r: Run, t: Turn, noted: Mapping)
    requires Inv(r) && InputsPrepared(r.commits)
    requires WellSized(d) && WellFormed(noted) && t.pipe.sanitize == Sanitizer(d, Some(account), noted)
    ensures InputsPrepared(Step(cfg, r, t).commits)
  {
    var ready, sockets, sent := StepDeliversOrIdles(cfg, r, t);
    if sent.Some? {
      CommittedOrNot(cfg, r, t, ready, sockets, sent.value, Step(cfg, r, t));
      CurrentItemsArePrepared(ready.conversation, cfg.limits, t.message.value, t.pipe, sent.value.plan,
                               d, Some(account), noted);
    }
  }

  ghost predicate FromUpstream(item: Item, commits: seq<Commit>) {
    exists c :: c in commits && item in c.terminal.output
  }

  lemma {:induction false} PartsAreCommitted(commits: seq<Commit>)
    ensures forall item :: item in SinceReset(commits) ==>
      FromUpstream(item, commits) || exists c :: c in commits && item in c.plan.currentInput
  {
    if commits != [] {
      var init, c := Init(commits), Last(commits);
      PartsAreCommitted(init);
      assert c in commits && forall earlier :: earlier in init ==> earlier in commits;
      forall item | item in SinceReset(commits)
        ensures FromUpstream(item, commits) || exists c :: c in commits && item in c.plan.currentInput
      {
        if item in SinceReset(init) && FromUpstream(item, init) {
          var earlier :| earlier in init && item in earlier.terminal.output;
          assert earlier in commits;
        }
      }
    }
  }

  lemma UnrepairedComesFrom(cfg: Config, d: Digests, account: Account, r: Run, t: Turn, noted: Mapping,
                            sent: Delivery, item: Item)
    requires Remembers(cfg.limits, r.session.conversation, r.commits) && InputsPrepared(r.commits)
    requires Planned(cfg, r.session, t) == Some(sent.plan)
    requires sent.before == r.session.conversation && sent.pipe == t.pipe
    requires WellSized(d) && WellFormed(noted) && t.pipe.sanitize == Sanitizer(d, Some(account), noted)
    requires item in Meant(sent) && !Prepared(item, false)
    ensures FromUpstream(item, r.commits)
  {
    CurrentItemsArePrepared(sent.before, cfg.limits, t.message.value, sent.pipe, sent.plan, d, Some(account), noted);
    MeantIsHistoryOrInput(sent, item);
    HistoryItemsComeFrom(r.commits, item);
  }

  lemma FromUpstreamLater(item: Item, earlier: seq<Commit>, later: seq<Commit>)
    requires FromUpstream(item, earlier) && earlier <= later
    ensures FromUpstream(item, later)
  {
    var c :| c in earlier && item in c.terminal.output;
    assert c in later;
  }

  /** Whatever a conversation still holds unrepaired came from the upstream. */
  lemma OnlyUpstreamItemsNeedRepair(cfg: Config, d: Digests, account: Account, turns: seq<Turn>, marks: seq<Mark>,
                                    sent: Delivery, item: Item)
    requires Threads(cfg, d, account, turns, marks) && WellSized(d)
    requires sent in RunOf(cfg, turns).deliveries && item in Meant(sent) && !Prepared(item, false)
    ensures FromUpstream(item, RunOf(cfg, turns).commits)
  {
    var i := DeliveryTurn(cfg, turns, sent);
    MappingsStayWellFormed(cfg, d, account, turns, marks, i);
    EveryRunRemembers(cfg, turns[..i]);
    ThreadsOfPrefix(cfg, d, account, turns, marks, i);
    CommittedInputsArePrepared(cfg, d, account, turns[..i], marks[..i]);
    UnrepairedComesFrom(cfg, d, account, RunOf(cfg, turns[..i]), turns[i], marks[i].noted, sent, item);
    FromUpstreamLater(item, RunOf(cfg, turns[..i]).commits, RunOf(cfg, turns).commits);
  }

  lemma MeantIsHistoryOrInput(sent: Delivery, item: Item)
    requires item in Meant(sent)
    ensures item in sent.before.history || item in sent.plan.currentInput
  {
    DedupMembers(sent.before.history + sent.plan.currentInput);
  }

  lemma HistoryItemsComeFrom(commits: seq<Commit>, item: Item)
    requires item in HistoryOf(commits) && InputsPrepared(commits) && !Prepared(item, false)
    ensures FromUpstream(item, commits)
  {
    HistoryComesFromTurns(commits);
    PartsAreCommitted(commits);
  }

  /** So a fallback delivers exactly the intended conversation whenever nothing the upstream answered needs repair. */
  lemma FallbackIsExactForPreparedOutputs(cfg: Config, d: Digests, account: Account, turns: seq<Turn>,
                                          marks: seq<Mark>, sent: Delivery)
    requires Threads(cfg, d, account, turns, marks) && WellSized(d)
    requires sent in RunOf(cfg, turns).deliveries && sent.generation == 0
    requires forall item :: FromUpstream(item, RunOf(cfg, turns).commits) ==> Prepared(item, false)
    ensures ItemsOf(sent.body) == Meant(sent)
  {
    var i := DeliveryTurn(cfg, turns, sent);
    MappingsStayWellFormed(cfg, d, account, turns, marks, i);
    forall k | 0 <= k < |Meant(sent)|
      ensures Prepared(Meant(sent)[k], false)
    {
      if !Prepared(Meant(sent)[k], false) {
        OnlyUpstreamItemsNeedRepair(cfg, d, account, turns, marks, sent, Meant(sent)[k]);
      }
    }
    FallbackDeliversExactly(cfg, turns, sent, d, Some(account), marks[i].again);
  }
}
