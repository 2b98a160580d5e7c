/** The single stored Codex credential: refresh, replacement and deletion. */
module CredentialLock {
  import opened Items

  const MARGIN := 120_000_000_000

  datatype Credential = Credential(
    email: string,
    accountId: string,
    plan: string,
    access: string,
    refresh: string,
    idToken: string,
    expiresAt: int)

  /** A token answer; the claims inside its tokens and the expiry they give are
      read by code outside this model. */
  datatype Claims = Claims(accountId: string, email: string, plan: string, expiresAt: int)
  datatype Tokens = Tokens(
    email: string,
    accountId: string,
    plan: string,
    access: string,
    refresh: string,
    idToken: string)

  predicate Fresh(credential: Credential, now: int) {
    credential.expiresAt > now + MARGIN
  }

  predicate Storable(credential: Credential) {
    credential.accountId != "" && credential.access != ""
  }

  function First(a: string, b: string): string {
    if a != "" then a else b
  }

  /** What the answer leaves out comes from the credential being refreshed. */
  function Filled(tokens: Tokens, read: Credential): Tokens {
    Tokens(First(tokens.email, read.email), First(tokens.accountId, read.accountId), First(tokens.plan, read.plan),
           tokens.access, First(tokens.refresh, read.refresh), First(tokens.idToken, read.idToken))
  }

  function Converted(tokens: Tokens, claims: Claims): Option<Credential> {
    var accountId := First(tokens.accountId, claims.accountId);
    if tokens.access == "" || accountId == "" then None
    else Some(Credential(First(tokens.email, claims.email), accountId, First(tokens.plan, claims.plan),
                         tokens.access, tokens.refresh, tokens.idToken, claims.expiresAt))
  }

  /** The outcome of the token endpoint: none on an error. */
  datatype Reply = NoReply | Reply(tokens: Tokens, claims: Claims)

  function Refreshed(read: Credential, reply: Reply): Option<Credential> {
    match reply
    case NoReply => None
    case Reply(tokens, claims) => Converted(Filled(tokens, read), claims)
  }

  class CredentialManager {
    var stored: Option<Credential>

    constructor ()
      ensures stored == None
    {
      stored := None;
    }

    /** `written` says whether the database transaction commits. */
    method SaveCredential(credential: Credential, written: bool) returns (saved: bool)
      modifies this
      ensures saved == (Storable(credential) && written)
      ensures saved <==> credential.accountId != "" && credential.access != "" && written
      ensures stored == if saved then Some(credential) else old(stored)
    {
      if credential.accountId == "" || credential.access == "" {
        return false;
      }
      if !written {
        return false;
      }
      stored := Some(credential);
      return true;
    }

    method DeleteAccount(written: bool) returns (deleted: bool)
      modifies this
      ensures deleted == written
      ensures stored == if deleted then None else old(stored)
    {
      if !written {
        return false;
      }
      stored := None;
      return true;
    }

    /** The section of a refresh that holds the lock. */
    method RefreshLocked(now: int, reply: Reply, written: bool) returns (credential: Option<Credential>)
      modifies this
      ensures old(stored).None? ==> credential == None && stored == None
      ensures old(stored).Some? && Fresh(old(stored).value, now) ==> credential == stored == old(stored)
      ensures old(stored).Some? && !Fresh(old(stored).value, now) ==>
        var next := Refreshed(old(stored).value, reply);
        credential == stored == next || (credential == None && stored == old(stored))
      ensures old(stored).Some? && !Fresh(old(stored).value, now) ==>
        (credential.Some? <==> old(stored).value.refresh != "" && written && Refreshed(old(stored).value, reply).Some?)
      ensures credential.Some? <==>
        && old(stored).Some?
        && var read := old(stored).value;
          || read.expiresAt > now + 120_000_000_000
          || (&& read.refresh != "" && written && reply.Reply? && reply.tokens.access != ""
              && (reply.tokens.accountId != "" || read.accountId != "" || reply.claims.accountId != ""))
      ensures old(stored).Some? && old(stored).value.expiresAt > now + 120_000_000_000 ==> stored == old(stored)
    {
      if stored.None? {
        return None;
      }
      var read := stored.value;
      if Fresh(read, now) {
        return Some(read);
      }
      if read.refresh == "" || reply.NoReply? {
        return None;
      }
      var next := Converted(Filled(reply.tokens, read), reply.claims);
      if next.None? {
        return None;
      }
      var saved := SaveCredential(next.value, written);
      return if saved then next else None;
    }
  }
}
