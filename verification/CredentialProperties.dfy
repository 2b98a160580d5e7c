/** The credential lock, over every interleaving of callers. */
module CredentialProperties {
  import opened Items
  import opened CredentialLock

  /** A caller of `FreshCredential` looks without the lock, waits for it, looks
      again, asks the token endpoint while holding it, and saves. Replacing and
      deleting are single steps under the lock. */
  datatype Phase =
    | Waiting
    | Locked
    | Asking(read: Credential, at: int)
    | Saving(read: Credential, next: Credential, at: int, reply: Reply)

  datatype Write =
    | Replace(credential: Credential)
    | Remove
    | Refresh(read: Credential, next: Credential, at: int, reply: Reply)

  /** `writes`, and the reply kept with a refresh, record history only. */
  datatype World = World(stored: Option<Credential>, holder: Option<nat>, callers: map<nat, Phase>, writes: seq<Write>)

  const INITIAL := World(None, None, map[], [])

  datatype Event =
    | Look(caller: nat, now: int)
    | Lock(caller: nat)
    | LookAgain(caller: nat, now: int)
    | Answered(caller: nat, reply: Reply)
    | Save(caller: nat, written: bool)
    | ReplaceWith(credential: Credential, written: bool)
    | Delete(written: bool)

  predicate Enabled(w: World, event: Event) {
    match event
    case Look(caller, _) => caller !in w.callers
    case Lock(caller) => caller in w.callers && w.callers[caller].Waiting? && w.holder.None?
    case LookAgain(caller, _) => caller in w.callers && w.callers[caller].Locked?
    case Answered(caller, _) => caller in w.callers && w.callers[caller].Asking?
    case Save(caller, _) => caller in w.callers && w.callers[caller].Saving?
    case ReplaceWith(_, _) => w.holder.None?
    case Delete(_) => w.holder.None?
  }

  function Left(w: World, caller: nat): World {
    w.(callers := w.callers - {caller}, holder := None)
  }

  function Step(w: World, event: Event): World
    requires Enabled(w, event)
  {
    match event
    case Look(caller, now) =>
      if w.stored.Some? && !Fresh(w.stored.value, now) then w.(callers := w.callers[caller := Waiting]) else w
    case Lock(caller) =>
      w.(callers := w.callers[caller := Locked], holder := Some(caller))
    case LookAgain(caller, now) =>
      if w.stored.None? || Fresh(w.stored.value, now) || w.stored.value.refresh == "" then Left(w, caller)
      else w.(callers := w.callers[caller := Asking(w.stored.value, now)])
    case Answered(caller, reply) =>
      var next := Refreshed(w.callers[caller].read, reply);
      if next.None? then Left(w, caller)
      else w.(callers := w.callers[caller := Saving(w.callers[caller].read, next.value, w.callers[caller].at, reply)])
    case Save(caller, written) =>
      var phase := w.callers[caller];
      if Storable(phase.next) && written
      then Left(w, caller).(stored := Some(phase.next),
             writes := w.writes + [Refresh(phase.read, phase.next, phase.at, phase.reply)])
      else Left(w, caller)
    case ReplaceWith(credential, written) =>
      if Storable(credential) && written
      then w.(stored := Some(credential), writes := w.writes + [Replace(credential)])
      else w
    case Delete(written) =>
      if written then w.(stored := None, writes := w.writes + [Remove]) else w
  }

  /** What the history of writes leaves stored. */
  function Outcome(writes: seq<Write>): Option<Credential> {
    if writes == [] then None
    else
      match writes[|writes| - 1]
      case Replace(credential) => Some(credential)
      case Remove => None
      case Refresh(_, next, _, _) => Some(next)
  }

  /** Every refresh that was saved follows the very write that left the credential
      it had read: nothing came in between. */
  ghost predicate RefreshesFollow(writes: seq<Write>) {
    forall i :: 0 <= i < |writes| && writes[i].Refresh? ==>
      Outcome(writes[..i]) == Some(writes[i].read) && FromItsReply(writes[i])
  }

  ghost predicate Due(read: Credential, at: int) {
    read.refresh != "" && !Fresh(read, at)
  }

  /** A refresh that was due at `at`, and for which `next` is what became of the reply that came. */
  ghost predicate Answers(read: Credential, next: Credential, at: int, reply: Reply) {
    Due(read, at) && Refreshed(read, reply) == Some(next)
  }

  ghost predicate FromItsReply(write: Write)
    requires write.Refresh?
  {
    Answers(write.read, write.next, write.at, write.reply)
  }

  ghost predicate Holds(phase: Phase) {
    !phase.Waiting?
  }

  ghost predicate PhaseAgrees(stored: Option<Credential>, phase: Phase) {
    match phase
    case Asking(read, at) => stored == Some(read) && Due(read, at)
    case Saving(read, next, at, reply) => stored == Some(read) && Answers(read, next, at, reply)
    case _ => true
  }

  ghost predicate Inv(w: World) {
    && (forall caller :: caller in w.callers && Holds(w.callers[caller]) ==> w.holder == Some(caller))
    && (forall caller :: caller in w.callers ==> PhaseAgrees(w.stored, w.callers[caller]))
    && w.stored == Outcome(w.writes)
    && RefreshesFollow(w.writes)
    && (w.stored.Some? ==> Storable(w.stored.value))
  }

  lemma WritingExtends(writes: seq<Write>, write: Write)
    requires RefreshesFollow(writes)
    requires write.Refresh? ==> Outcome(writes) == Some(write.read) && FromItsReply(write)
    ensures RefreshesFollow(writes + [write])
  {
    var longer := writes + [write];
    forall i | 0 <= i < |longer| && longer[i].Refresh?
      ensures Outcome(longer[..i]) == Some(longer[i].read) && FromItsReply(longer[i])
    {
      if i < |writes| {
        assert longer[..i] == writes[..i];
      } else {
        assert longer[..i] == writes;
      }
    }
  }

  lemma StepKeepsInv(w: World, event: Event)
    requires Inv(w) && Enabled(w, event)
    ensures Inv(Step(w, event))
  {
    match event
    case Save(caller, written) =>
      var phase := w.callers[caller];
      WritingExtends(w.writes, Refresh(phase.read, phase.next, phase.at, phase.reply));
    case ReplaceWith(credential, written) =>
      WritingExtends(w.writes, Replace(credential));
    case Delete(written) =>
      WritingExtends(w.writes, Remove);
    case _ =>
  }

  ghost predicate Follows(w: World, next: World) {
    exists event :: Enabled(w, event) && next == Step(w, event)
  }

  ghost predicate IsRun(run: seq<World>) {
    && |run| > 0
    && run[0] == INITIAL
    && forall i :: 0 <= i < |run| - 1 ==> Follows(run[i], run[i + 1])
  }

  lemma {:induction false} EveryRunKeepsInv(run: seq<World>, i: nat)
    requires IsRun(run) && i < |run|
    ensures Inv(run[i])
  {
    if i > 0 {
      EveryRunKeepsInv(run, i - 1);
      assert Follows(run[i - 1], run[i]);
      var event :| Enabled(run[i - 1], event) && run[i] == Step(run[i - 1], event);
      StepKeepsInv(run[i - 1], event);
    }
  }

  /** In every interleaving a saved refresh replaces exactly the credential it
      started from: a replacement made while it was in flight is never overwritten
      and a deleted account is never revived. */
  lemma RefreshesNeverOverwriteOthersWrites(run: seq<World>, i: nat, k: nat)
    requires IsRun(run) && i < |run|
    requires k < |run[i].writes| && run[i].writes[k].Refresh?
    ensures k > 0
    ensures !run[i].writes[k - 1].Remove?
    ensures run[i].writes[k - 1].Replace? ==> run[i].writes[k - 1].credential == run[i].writes[k].read
    ensures run[i].writes[k - 1].Refresh? ==> run[i].writes[k - 1].next == run[i].writes[k].read
  {
    EveryRunKeepsInv(run, i);
    assert Outcome(run[i].writes[..k]) == Some(run[i].writes[k].read);
    assert run[i].writes[..k][k - 1] == run[i].writes[k - 1];
  }

  /** At most one refresh is under way, and it presents the refresh token that is
      stored at that moment, never a superseded one, and only when no more than
      two minutes of the stored credential were left. */
  lemma OneRefreshAtATime(run: seq<World>, i: nat, a: nat, b: nat)
    requires IsRun(run) && i < |run|
    requires a in run[i].callers && b in run[i].callers
    requires Holds(run[i].callers[a]) && Holds(run[i].callers[b])
    ensures a == b
    ensures run[i].callers[a].Asking? ==>
      && run[i].stored == Some(run[i].callers[a].read)
      && run[i].callers[a].read.refresh != ""
      && run[i].callers[a].read.expiresAt <= run[i].callers[a].at + 120_000_000_000
  {
    EveryRunKeepsInv(run, i);
    assert PhaseAgrees(run[i].stored, run[i].callers[a]);
  }

  /** A caller that holds the lock asks the token endpoint exactly when a credential with a refresh token is stored
      that is valid for no more than two minutes, and then with that credential; a caller waits for the lock
      exactly when such a time has come. */
  lemma AsksExactlyWhenDue(w: World, caller: nat, now: int)
    ensures Enabled(w, LookAgain(caller, now)) ==>
      var next := Step(w, LookAgain(caller, now));
      (caller in next.callers <==>
         w.stored.Some? && w.stored.value.refresh != "" && w.stored.value.expiresAt <= now + 120_000_000_000)
      && (caller in next.callers ==> next.callers[caller] == Asking(w.stored.value, now))
    ensures Enabled(w, Look(caller, now)) ==>
      var next := Step(w, Look(caller, now));
      (caller in next.callers <==> w.stored.Some? && w.stored.value.expiresAt <= now + 120_000_000_000)
  {
  }

  /** A refresh that is answered goes on to be saved exactly when the answer has an access token and some account is
      known. */
  lemma AnswerIsTakenExactly(w: World, caller: nat, reply: Reply)
    requires Enabled(w, Answered(caller, reply))
    ensures var next, read := Step(w, Answered(caller, reply)), w.callers[caller].read;
      caller in next.callers <==>
        && reply.Reply? && reply.tokens.access != ""
        && (reply.tokens.accountId != "" || read.accountId != "" || reply.claims.accountId != "")
  {
  }

  /** In every interleaving a saved refresh comes of a reply of the token endpoint, takes the new access token
      from it, and keeps everything else of the credential it started from that this very reply left out;
      claims only fill what is then still empty. So it leaves a refresh token and an account to go on with. */
  lemma RefreshesLoseNothing(run: seq<World>, i: nat, k: nat)
    requires IsRun(run) && i < |run|
    requires k < |run[i].writes| && run[i].writes[k].Refresh?
    ensures run[i].writes[k].reply.Reply?
    ensures var write := run[i].writes[k];
      var read, next, tokens, claims := write.read, write.next, write.reply.tokens, write.reply.claims;
      && next.access == tokens.access != ""
      && next.refresh == (if tokens.refresh == "" then read.refresh else tokens.refresh)
      && next.idToken == (if tokens.idToken == "" then read.idToken else tokens.idToken)
      && Keeps(read.accountId, tokens.accountId, claims.accountId, next.accountId)
      && Keeps(read.email, tokens.email, claims.email, next.email)
      && Keeps(read.plan, tokens.plan, claims.plan, next.plan)
      && next.expiresAt == claims.expiresAt
      && next.refresh != "" && Storable(next)
  {
    EveryRunKeepsInv(run, i);
    assert FromItsReply(run[i].writes[k]);
  }

  /** What a field is after a refresh, by what the reply said and what was there. */
  predicate Keeps(before: string, said: string, claimed: string, after: string) {
    && (said != "" ==> after == said)
    && (said == "" && before != "" ==> after == before)
    && (said == "" && before == "" ==> after == claimed)
  }
}
