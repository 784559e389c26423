/** `InMemoryTokenStore`: auth and refresh tokens by owner and token, up to case. */
module TokenStore {
  import opened Wrappers
  import opened Trust

  datatype Token = Token(token: string, agentId: string, userIdentity: string, expiresAt: int)

  type Tokens = map<string, Token>

  const ANONYMOUS := "anonymous"

  function StoreToken(ts: Tokens, token: string, agentId: Option<string>, user: string, expiryMs: int, now: int): Tokens {
    ts[TrustId(if agentId.Some? then agentId.value else user, token) :=
         Token(token, if agentId.Some? then agentId.value else ANONYMOUS, user, now + expiryMs)]
  }

  function RemoveToken(ts: Tokens, owner: string, token: string): Tokens {
    ts - {TrustId(owner, token)}
  }

  /** `get`, which drops what it finds expired. */
  function GetToken(ts: Tokens, owner: string, token: string, now: int): (Tokens, Option<Token>) {
    var key := TrustId(owner, token);
    if key !in ts then (ts, None)
    else if now > ts[key].expiresAt then (RemoveToken(ts, owner, token), None)
    else (ts, Some(ts[key]))
  }

  function CleanupTokens(ts: Tokens, now: int): Tokens {
    map key | key in ts && now <= ts[key].expiresAt :: ts[key]
  }

  class InMemoryTokenStore {
    var tokens: Tokens

    constructor ()
      ensures tokens == map[]
    {
      tokens := map[];
    }

    method Store(token: string, agentId: Option<string>, user: string, expiryMs: int, now: int)
      modifies this
      ensures tokens == StoreToken(old(tokens), token, agentId, user, expiryMs, now)
    {
      var owner, agent := user, ANONYMOUS;
      if agentId.Some? {
        owner := agentId.value;
        agent := agentId.value;
      }
      tokens := tokens[TrustId(owner, token) := Token(token, agent, user, now + expiryMs)];
    }

    method Get(owner: string, token: string, now: int) returns (found: Option<Token>)
      modifies this
      ensures (tokens, found) == GetToken(old(tokens), owner, token, now)
    {
      var key := TrustId(owner, token);
      if key !in tokens {
        return None;
      }
      if now > tokens[key].expiresAt {
        Remove(owner, token);
        return None;
      }
      return Some(tokens[key]);
    }

    method Remove(owner: string, token: string)
      modifies this
      ensures tokens == RemoveToken(old(tokens), owner, token)
    {
      tokens := tokens - {TrustId(owner, token)};
    }

    method Cleanup(now: int)
      modifies this
      ensures tokens == CleanupTokens(old(tokens), now)
    {
      var expired: set<string> := {};
      var left := tokens.Keys;
      while left != {}
        invariant left <= tokens.Keys && expired <= tokens.Keys
        invariant tokens == old(tokens)
        invariant forall key :: key in tokens && key !in left ==> (key in expired <==> now > tokens[key].expiresAt)
        invariant forall key :: key in expired ==> key !in left
        decreases left
      {
        var key :| key in left;
        if now > tokens[key].expiresAt {
          expired := expired + {key};
        }
        left := left - {key};
      }
      while expired != {}
        invariant tokens == old(tokens) - (old(tokens).Keys - tokens.Keys)
        invariant expired <= tokens.Keys
        invariant forall key :: key in old(tokens) ==>
                                  (key in tokens && key !in expired <==> now <= old(tokens)[key].expiresAt)
        decreases expired
      {
        var key :| key in expired;
        tokens := tokens - {key};
        expired := expired - {key};
      }
    }
  }
}
