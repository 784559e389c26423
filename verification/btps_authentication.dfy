/**
 The authentication object. A key history is an array on the heap, shared
 between the stored trust record and the patch that is being built from it.
 */
module AuthenticationObject {
  import opened Wrappers
  import opened Json
  import opened Trust
  import opened TokenStore
  import A = Authentication

  class KeyList {
    var entries: seq<KeySeen>

    constructor ()
      ensures entries == []
    {
      entries := [];
    }

    method Push(seen: KeySeen)
      modifies this
      ensures entries == old(entries) + [seen]
    {
      entries := entries + [seen];
    }
  }

  type StoredRecord = Record<KeyList>

  class BtpsAuthentication {
    const config: A.Config
    const tokenStore: InMemoryTokenStore
    var trust: map<string, StoredRecord>
    ghost var histories: set<KeyList>

    /** The histories are those of the records, and no two records share one. */
    ghost predicate Valid()
      reads this
    {
      && (forall id :: id in trust ==> trust[id].keyHistory in histories)
      && forall i, j :: i in trust && j in trust && trust[i].keyHistory == trust[j].keyHistory ==> i == j
    }

    /** A stored record as a value, with what its history holds. */
    static function WithHistory(r: StoredRecord, entries: seq<KeySeen>): A.TrustRecord {
      Record(r.senderId, r.receiverId, r.status, r.decidedAt, r.expiresAt, r.retryAfterDate,
             r.publicKey, r.publicKeyFingerprint, entries)
    }

    ghost function TrustContents(): map<string, A.TrustRecord>
      requires Valid()
      reads this, histories
    {
      map id | id in trust :: WithHistory(trust[id], trust[id].keyHistory.entries)
    }

    ghost function Model(): A.Auth
      requires Valid()
      reads this, tokenStore, histories
    {
      A.Auth(tokenStore.tokens, TrustContents())
    }

    constructor (config: A.Config)
      ensures Valid() && fresh(tokenStore) && this.config == config
      ensures Model() == A.START.auth
    {
      this.config := config;
      tokenStore := new InMemoryTokenStore();
      trust := map[];
      histories := {};
    }

    method StoreAuthToken(token: string, user: string, now: int)
      requires Valid()
      modifies tokenStore
      ensures Valid()
      ensures Model() == A.Apply(config, old(Model()), A.StoreAuthToken(token, user), now).0
    {
      tokenStore.Store(token, None, user, config.authTokenExpiryMs, now);
    }

    method ValidateAuthToken(user: string, token: string, now: int) returns (r: A.Answer)
      requires Valid()
      modifies tokenStore
      ensures Valid()
      ensures Model() == A.Apply(config, old(Model()), A.ValidateAuthToken(user, token), now).0
      ensures r == A.Apply(config, old(Model()), A.ValidateAuthToken(user, token), now).1
    {
      var stored := tokenStore.Get(user, token, now);
      if stored.None? {
        return A.Refused;
      }
      tokenStore.Remove(user, token);
      return A.ValidUser(stored.value.userIdentity);
    }

    method ValidateRefreshToken(agentId: string, token: string, now: int) returns (r: A.Answer)
      requires Valid()
      modifies tokenStore
      ensures Valid()
      ensures Model() == A.Apply(config, old(Model()), A.ValidateRefreshToken(agentId, token), now).0
      ensures r == A.Apply(config, old(Model()), A.ValidateRefreshToken(agentId, token), now).1
    {
      var stored := tokenStore.Get(agentId, token, now);
      if stored.None? {
        return A.Refused;
      }
      return A.ValidAgent(stored.value.agentId, stored.value.userIdentity);
    }

    /** The agent's trust record, with a history array of its own; none if there is one already or the key is no key. */
    method CreateAgentTrustRecord(agentId: string, user: string, pem: Pem, trustExpiryMs: int, now: int)
      returns (expiresAt: Option<int>)
      requires Valid()
      modifies this
      ensures Valid()
      ensures expiresAt.Some? <==> pem.PublicPem? && TrustId(agentId, user) !in old(TrustContents())
      ensures expiresAt.None? ==> TrustContents() == old(TrustContents())
      ensures expiresAt.Some? ==>
                var lifetime := if trustExpiryMs != 0 then trustExpiryMs else config.refreshTokenExpiryMs;
                && expiresAt.value == now + lifetime
                && TrustContents() == old(TrustContents())[TrustId(agentId, user) := A.NewRecord(agentId, user, pem.key, lifetime, now)]
    {
      var id := TrustId(agentId, user);
      if !pem.PublicPem? || id in trust {
        return None;
      }
      var lifetime := if trustExpiryMs != 0 then trustExpiryMs else config.refreshTokenExpiryMs;
      var history := new KeyList();
      histories := histories + {history};
      trust := trust[id := Record(agentId, user, Accepted, now, Some(now + lifetime), None, pem.key, pem.key, history)];
      return Some(now + lifetime);
    }

    method CreateAgent(agentId: string, newToken: string, user: string, pem: Pem, trustExpiryMs: Option<int>, now: int)
      returns (r: A.Answer)
      requires Valid()
      modifies this, tokenStore
      ensures Valid()
      ensures Model() == A.Apply(config, old(Model()), A.CreateAgent(agentId, newToken, user, pem, trustExpiryMs), now).0
      ensures r == A.Apply(config, old(Model()), A.CreateAgent(agentId, newToken, user, pem, trustExpiryMs), now).1
    {
      var expiry := if trustExpiryMs.Some? then trustExpiryMs.value else config.refreshTokenExpiryMs;
      var expiresAt := CreateAgentTrustRecord(agentId, user, pem, expiry, now);
      if expiresAt.None? {
        return A.Failed;
      }
      tokenStore.Store(newToken, Some(agentId), user, config.refreshTokenExpiryMs, now);
      return A.Issued(agentId, newToken, expiresAt.value);
    }

    /**
     Renews a trust record: the patch takes over the record's own history array,
     so a push through the patch has already happened to the stored record, and
     stays when the store rejects the update.
     */
    method RenewTrust(id: string, publicKey: Option<nat>, lifetime: int, now: int, rejects: bool) returns (updated: bool)
      requires Valid() && id in trust
      modifies this, histories
      ensures Valid() && updated == !rejects
      ensures TrustContents() == old(TrustContents())[id :=
                if rejects then A.Pushed(old(TrustContents())[id], publicKey, now)
                else A.Refreshed(old(TrustContents())[id], publicKey, lifetime, now)]
    {
      var record := trust[id];
      ghost var before := TrustContents();
      var patch := Rotate(record, publicKey, now);
      if rejects {
        MapUpdated(before, TrustContents(), id, A.Pushed(before[id], publicKey, now));
        return false;
      }
      patch := patch.(expiresAt := Some(now + lifetime), status := Accepted, decidedAt := now);
      ghost var renewed := WithHistory(patch, record.keyHistory.entries);
      assert renewed == A.Refreshed(before[id], publicKey, lifetime, now);
      trust := trust[id := patch];
      MapUpdated(before, TrustContents(), id, renewed);
      return true;
    }

    static lemma MapUpdated(m: map<string, A.TrustRecord>, m': map<string, A.TrustRecord>, id: string, r: A.TrustRecord)
      requires id in m && m'.Keys == m.Keys && m'[id] == r
      requires forall i :: i in m && i != id ==> m'[i] == m[i]
      ensures m' == m[id := r]
    {
    }

    /** The patch with a new key in it, if it is new: the old one goes to the end of the shared history. */
    static method Rotate(record: StoredRecord, publicKey: Option<nat>, now: int) returns (patch: StoredRecord)
      modifies record.keyHistory
      ensures patch.keyHistory == record.keyHistory
      ensures WithHistory(patch.(expiresAt := None, status := Accepted, decidedAt := now), record.keyHistory.entries) ==
                A.Refreshed(WithHistory(record, old(record.keyHistory.entries)), publicKey, 0, now).(expiresAt := None)
      ensures WithHistory(record, record.keyHistory.entries) == A.Pushed(WithHistory(record, old(record.keyHistory.entries)), publicKey, now)
    {
      patch := record;
      if publicKey.Some? && record.publicKeyFingerprint != publicKey.value {
        var history := record.keyHistory;
        history.Push(KeySeen(record.publicKeyFingerprint, record.decidedAt, now));
        patch := patch.(keyHistory := history, publicKey := publicKey.value, publicKeyFingerprint := publicKey.value);
      }
    }

    /** The old token removed, the new one stored. */
    method Exchange(agentId: string, token: string, newToken: string, user: string, now: int)
      modifies tokenStore
      ensures tokenStore.tokens ==
                StoreToken(RemoveToken(old(tokenStore.tokens), agentId, token), newToken, Some(agentId), user, config.refreshTokenExpiryMs, now)
    {
      tokenStore.Remove(agentId, token);
      tokenStore.Store(newToken, Some(agentId), user, config.refreshTokenExpiryMs, now);
    }

    method ValidateAndReissueRefreshToken(
      agentId: string, token: string, newToken: string, publicKey: Option<Pem>, trustExpiryMs: Option<int>, now: int, rejects: bool)
      returns (r: A.Answer)
      requires Valid()
      modifies this, tokenStore, histories
      ensures Valid()
      ensures Model() == A.Apply(config, old(Model()), A.Reissue(agentId, token, newToken, publicKey, trustExpiryMs, rejects), now).0
      ensures r == A.Apply(config, old(Model()), A.Reissue(agentId, token, newToken, publicKey, trustExpiryMs, rejects), now).1
    {
      var validation := ValidateRefreshToken(agentId, token, now);
      if !validation.ValidAgent? {
        return A.Refused;
      }
      assert tokenStore.tokens == old(tokenStore.tokens);
      var user := validation.userIdentity;
      if TrustId(agentId, user) !in trust {
        return A.NoTrust;
      }
      if A.Given(publicKey) && !publicKey.value.PublicPem? {
        return A.Failed;
      }
      var lifetime := if trustExpiryMs.Some? then trustExpiryMs.value else config.refreshTokenExpiryMs;
      var updated := Renew(agentId, token, newToken, user, A.KeyOf(publicKey), lifetime, now, rejects);
      return if updated then A.Issued(agentId, newToken, now + lifetime) else A.UpdateRejected;
    }

    /** The trust record renewed and, unless the store rejects that, the token exchanged. */
    method Renew(
      agentId: string, token: string, newToken: string, user: string, publicKey: Option<nat>, lifetime: int, now: int, rejects: bool)
      returns (updated: bool)
      requires Valid() && TrustId(agentId, user) in trust
      modifies this, tokenStore, histories
      ensures Valid() && updated == !rejects
      ensures tokenStore.tokens ==
                if rejects then old(tokenStore.tokens)
                else StoreToken(RemoveToken(old(tokenStore.tokens), agentId, token), newToken, Some(agentId), user, config.refreshTokenExpiryMs, now)
      ensures TrustContents() == old(TrustContents())[TrustId(agentId, user) :=
                if rejects then A.Pushed(old(TrustContents())[TrustId(agentId, user)], publicKey, now)
                else A.Refreshed(old(TrustContents())[TrustId(agentId, user)], publicKey, lifetime, now)]
    {
      updated := RenewTrust(TrustId(agentId, user), publicKey, lifetime, now, rejects);
      if updated {
        Exchange(agentId, token, newToken, user, now);
      }
    }

    method Cleanup(now: int)
      requires Valid()
      modifies tokenStore
      ensures Valid()
      ensures Model() == A.Apply(config, old(Model()), A.Cleanup, now).0
    {
      tokenStore.Cleanup(now);
      tokenStore.Cleanup(now);
    }
  }
}
