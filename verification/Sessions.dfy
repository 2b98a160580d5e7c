/** The session around a conversation: upstream sockets, HTTP fallback, and how a turn can end. */
module Sessions {
  import opened Items
  import opened Requests
  import opened Conversation

  const FALLBACK_RETRY_SECONDS: nat := 20

  datatype Config = Config(limits: Limits, httpFallback: bool)

  datatype Upstream = Upstream(generation: nat, account: string)

  /** `retryAt` is 0 while no dial has failed; a closed session handles no further turn. */
  datatype Session = Session(
    conversation: State,
    upstream: Option<Upstream>,
    nextGeneration: nat,
    retryAt: nat,
    closed: bool)

  datatype Authorization = Granted | Revoked | StoreDown

  datatype Dial = Connected | Refused | NotAttempted

  /** How the event stream of a submitted turn ends. */
  datatype Ending = Finished(terminal: Option<Terminal>) | Failed | Disconnected | ClientGone

  /** Everything outside the session that a turn meets. */
  datatype Turn = Turn(
    authorization: Authorization,
    account: Option<string>,
    message: Option<Body>,
    pipe: Pipeline,
    alive: bool,
    now: nat,
    dial: Dial,
    written: bool,
    answered: bool,
    ending: Ending)

  const OPENED := Session(FRESH, None, 0, 0, false)

  /** The live socket of this account is reused; otherwise it is dropped and, unless a recent failure
      is still cooling down, replaced by a new one. */
  function EnsureUpstream(cfg: Config, s: Session, t: Turn, account: string): Session {
    if s.upstream.Some? && s.upstream.value.account == account && t.alive then s
    else if cfg.httpFallback && t.now < s.retryAt then s.(upstream := None)
    else match t.dial
      case NotAttempted => s.(upstream := None)
      case Refused => s.(upstream := None, retryAt := t.now + FALLBACK_RETRY_SECONDS)
      case Connected =>
        s.(upstream := Some(Upstream(s.nextGeneration + 1, account)),
           nextGeneration := s.nextGeneration + 1,
           retryAt := 0)
  }

  function ForwardTurn(cfg: Config, s: Session, plan: Plan, generation: nat, ending: Ending): Session {
    match ending
    case Finished(terminal) =>
      (match CommitTurn(s.conversation, cfg.limits, plan, terminal, generation)
       case Ok(next) => s.(conversation := next)
       case Err(_) => s.(closed := true))
    case Failed => s.(upstream := None)
    case Disconnected => s.(upstream := None, closed := true)
    case ClientGone => s.(closed := true)
  }

  function FallBackToHttp(cfg: Config, s: Session, plan: Plan, t: Turn): Session {
    if HttpBody(ChosenBody(s.conversation, plan, 0, true), t.pipe).Err? || !t.answered then s
    else match t.ending
      case Finished(terminal) =>
        (match CommitTurn(s.conversation, cfg.limits, plan, terminal, 0)
         case Ok(next) => s.(conversation := next)
         case Err(_) => s)
      case Failed => s
      case Disconnected => s
      case ClientGone => s.(closed := true)
  }

  function RunPlan(cfg: Config, ready: Session, plan: Plan, t: Turn): Session {
    if ready.upstream.None? then
      if cfg.httpFallback then FallBackToHttp(cfg, ready, plan, t) else ready
    else if !t.written then ready.(upstream := None, closed := true)
    else ForwardTurn(cfg, ready, plan, ready.upstream.value.generation, t.ending)
  }

  function HandleTurn(cfg: Config, s: Session, t: Turn): Session {
    if s.closed || t.authorization.StoreDown? then s
    else if t.authorization.Revoked? then s.(closed := true)
    else if t.account.None? then s.(upstream := None)
    else match PlanTurn(s.conversation, cfg.limits, t.message, t.pipe)
      case Err(_) => s
      case Ok(plan) => RunPlan(cfg, EnsureUpstream(cfg, s, t, t.account.value), plan, t)
  }

  /* ---- the object ---- */

  class WebSocketSession {
    const cfg: Config
    const conversation: WebSocketConversation
    var upstream: Option<Upstream>
    var nextGeneration: nat
    var webSocketRetryAt: nat
    var closed: bool

    ghost predicate Valid()
      reads this
    {
      conversation.limits == cfg.limits
    }

    ghost function View(): Session
      reads this, conversation
    {
      Session(conversation.View(), upstream, nextGeneration, webSocketRetryAt, closed)
    }

    constructor (cfg: Config)
      ensures Valid() && View() == OPENED && this.cfg == cfg
    {
      this.cfg := cfg;
      conversation := new WebSocketConversation(cfg.limits);
      upstream, nextGeneration, webSocketRetryAt, closed := None, 0, 0, false;
    }

    method InvalidateUpstream()
      modifies this`upstream
      ensures upstream == None
    {
      upstream := None;
    }

    method Ensure(t: Turn, account: string)
      modifies this`upstream, this`nextGeneration, this`webSocketRetryAt
      ensures View() == EnsureUpstream(cfg, old(View()), t, account)
    {
      if upstream.Some? && upstream.value.account == account && t.alive {
        return;
      }
      InvalidateUpstream();
      if cfg.httpFallback && t.now < webSocketRetryAt {
        return;
      }
      match t.dial {
        case NotAttempted =>
        case Refused =>
          webSocketRetryAt := t.now + FALLBACK_RETRY_SECONDS;
        case Connected =>
          nextGeneration := nextGeneration + 1;
          upstream := Some(Upstream(nextGeneration, account));
          webSocketRetryAt := 0;
      }
    }

    method Forward(plan: Plan, generation: nat, ending: Ending)
      requires Valid()
      modifies this, conversation
      ensures Valid() && View() == ForwardTurn(cfg, old(View()), plan, generation, ending)
    {
      match ending {
        case Finished(terminal) =>
          var failure := conversation.Commit(plan, terminal, generation);
          if failure.Some? {
            closed := true;
          }
        case Failed =>
          InvalidateUpstream();
        case Disconnected =>
          closed := true;
          InvalidateUpstream();
        case ClientGone =>
          closed := true;
      }
    }

    method ExecuteHttpFallback(plan: Plan, t: Turn)
      requires Valid()
      modifies this, conversation
      ensures Valid() && View() == FallBackToHttp(cfg, old(View()), plan, t)
    {
      var prepared := HttpBody(conversation.BodyFor(plan, 0, true), t.pipe);
      if prepared.Err? || !t.answered {
        return;
      }
      match t.ending {
        case Finished(terminal) =>
          var _ := conversation.Commit(plan, terminal, 0);
        case Failed =>
        case Disconnected =>
        case ClientGone =>
          closed := true;
      }
    }

    method Handle(t: Turn)
      requires Valid()
      modifies this, conversation
      ensures Valid() && View() == HandleTurn(cfg, old(View()), t)
    {
      if closed || t.authorization.StoreDown? {
        return;
      }
      if t.authorization.Revoked? {
        closed := true;
        return;
      }
      if t.account.None? {
        InvalidateUpstream();
        return;
      }
      var planned := conversation.Prepare(t.message, t.pipe);
      if planned.Err? {
        return;
      }
      Ensure(t, t.account.value);
      Submit(planned.value, t);
    }

    method Submit(plan: Plan, t: Turn)
      requires Valid()
      modifies this, conversation
      ensures Valid() && View() == RunPlan(cfg, old(View()), plan, t)
    {
      if upstream.None? {
        if cfg.httpFallback {
          ExecuteHttpFallback(plan, t);
        }
        return;
      }
      if !t.written {
        InvalidateUpstream();
        closed := true;
        return;
      }
      Forward(plan, upstream.value.generation, t.ending);
    }
  }
}
