/** Trust records and the decisions taken on them. Times are milliseconds. */
module Trust {
  import opened Wrappers

  // --------------------------------------------------------------------- trust ids

  /** `toLowerCase` on ASCII letters. */
  function LowerChar(c: char): char {
    if 'A' <= c <= 'Z' then c - 'A' + 'a' else c
  }

  function Lower(s: string): (r: string)
    ensures |r| == |s|
    ensures forall i :: 0 <= i < |s| ==> r[i] == LowerChar(s[i])
  {
    if s == "" then "" else [LowerChar(s[0])] + Lower(s[1..])
  }

  /** `computeTrustId`, without the hash. */
  function TrustId(senderId: string, receiverId: string): string {
    Lower(senderId + ":" + receiverId)
  }

  predicate NoColon(s: string) {
    forall i :: 0 <= i < |s| ==> s[i] != ':'
  }

  lemma LowerJoin(a: string, b: string)
    ensures TrustId(a, b) == Lower(a) + ":" + Lower(b)
  {
    assert forall i :: 0 <= i < |a| + 1 + |b| ==> TrustId(a, b)[i] == (Lower(a) + ":" + Lower(b))[i];
  }

  lemma LowerKeepsColons(a: string)
    ensures NoColon(Lower(a)) <==> NoColon(a)
  {
    assert forall i :: 0 <= i < |a| ==> (Lower(a)[i] == ':' <==> a[i] == ':');
  }

  /**
   Trust ids agree only if both parts do, up to case: with colon-free senders,
   with colon-free receivers, or with one pair colon-free throughout.
   */
  lemma TrustIdInjective(a: string, b: string, a': string, b': string)
    requires (NoColon(a) || NoColon(b')) && (NoColon(a') || NoColon(b))
    ensures TrustId(a, b) == TrustId(a', b') <==> Lower(a) == Lower(a') && Lower(b) == Lower(b')
  {
    LowerJoin(a, b);
    LowerJoin(a', b');
    LowerKeepsColons(a);
    LowerKeepsColons(a');
    LowerKeepsColons(b);
    LowerKeepsColons(b');
    if TrustId(a, b) == TrustId(a', b') {
      SplitAgrees(Lower(a), Lower(b), Lower(a'), Lower(b'));
    }
  }

  /** The same character, or the small and the capital form of one letter. */
  predicate SameLetter(c: char, d: char) {
    c == d || Capital(c, d) || Capital(d, c)
  }

  predicate Capital(c: char, d: char) {
    'A' <= c <= 'Z' && d as int == c as int + 32
  }

  /** Two parts count as one exactly if they differ at most in the case of letters. */
  lemma SameUpToCaseIff(a: string, b: string)
    ensures Lower(a) == Lower(b) <==> |a| == |b| && forall i :: 0 <= i < |a| ==> SameLetter(a[i], b[i])
  {
    assert |Lower(a)| == |a| && |Lower(b)| == |b|;
    if |a| == |b| {
      forall i | 0 <= i < |a| ensures Lower(a)[i] == Lower(b)[i] <==> SameLetter(a[i], b[i]) {
        LowerAgreesIff(a[i], b[i]);
      }
    }
  }

  lemma LowerAgreesIff(c: char, d: char)
    ensures LowerChar(c) == LowerChar(d) <==> SameLetter(c, d)
  {
    LowerCode(c);
    LowerCode(d);
  }

  lemma LowerCode(c: char)
    ensures LowerChar(c) as int == if 'A' <= c <= 'Z' then c as int + 32 else c as int
  {
  }

  lemma SplitAgrees(a: string, b: string, a': string, b': string)
    requires a + ":" + b == a' + ":" + b'
    requires (NoColon(a) || NoColon(b')) && (NoColon(a') || NoColon(b))
    ensures a == a' && b == b'
  {
    if |a| < |a'| {
      ShorterSplit(a, b, a', b');
    } else if |a'| < |a| {
      ShorterSplit(a', b', a, b);
    } else {
      var s := a + ":" + b;
      assert a == s[..|a|] && a' == s[..|a|] && b == s[|a| + 1..] && b' == s[|a| + 1..];
    }
  }

  /** Two ways to split at a colon: the longer head and the longer tail hold one themselves. */
  lemma ShorterSplit(a: string, b: string, a': string, b': string)
    requires a + ":" + b == a' + ":" + b' && |a| < |a'|
    ensures !NoColon(a') && !NoColon(b)
  {
    var s := a + ":" + b;
    assert a'[|a|] == (a' + ":" + b')[|a|] == s[|a|];
    assert b[|a'| - |a| - 1] == s[|a'|] == (a' + ":" + b')[|a'|];
  }

  /** Some other pair, differing by more than case, has the same id. */
  ghost predicate SharesItsId(a: string, b: string) {
    exists a', b' :: TrustId(a', b') == TrustId(a, b) && !(Lower(a') == Lower(a) && Lower(b') == Lower(b))
  }

  /** A pair shares its id with another one if and only if there is a colon in one of its parts. */
  lemma SharesItsIdIff(a: string, b: string)
    ensures SharesItsId(a, b) <==> !NoColon(a) || !NoColon(b)
  {
    if !NoColon(a) {
      var i :| 0 <= i < |a| && a[i] == ':';
      assert a == a[..i] + ":" + a[i + 1..];
      BothShare(a[..i], a[i + 1..], b);
    } else if !NoColon(b) {
      var i :| 0 <= i < |b| && b[i] == ':';
      assert b == b[..i] + ":" + b[i + 1..];
      BothShare(a, b[..i], b[i + 1..]);
    } else if SharesItsId(a, b) {
      var a', b' :| TrustId(a', b') == TrustId(a, b) && !(Lower(a') == Lower(a) && Lower(b') == Lower(b));
      TrustIdInjective(a, b, a', b');
    }
  }

  lemma BothShare(a: string, m: string, b: string)
    ensures SharesItsId(a + ":" + m, b) && SharesItsId(a, m + ":" + b)
  {
    MovedColon(a, m, b);
    assert |Lower(a)| != |Lower(a + ":" + m)|;
  }

  lemma MovedColon(a: string, m: string, b: string)
    ensures TrustId(a + ":" + m, b) == TrustId(a, m + ":" + b)
  {
    assert a + ":" + m + ":" + b == a + ":" + (m + ":" + b);
  }

  /** Identities may hold colons: these two pairs of them share one id. */
  lemma IdentitiesShareAnId()
    ensures TrustId("a$b.c:d", "e$f.g") == TrustId("a$b.c", "d:e$f.g")
  {
    MovedColon("a$b.c", "d", "e$f.g");
  }

  // ------------------------------------------------------------------ trust records

  datatype Status = Accepted | Rejected | Revoked | Pending | Blocked

  /** One key the sender used before: its fingerprint and the interval noted for it. */
  datatype KeySeen = KeySeen(fingerprint: nat, firstSeen: int, lastSeen: int)

  /** A key stands for its own base64 text and fingerprint; `H` is how the history is held. */
  datatype Record<+H> = Record(
    senderId: string,
    receiverId: string,
    status: Status,
    decidedAt: int,
    expiresAt: Option<int>,
    retryAfterDate: Option<int>,
    publicKey: nat,
    publicKeyFingerprint: nat,
    keyHistory: H)

  /** `isTrustActive` */
  predicate IsTrustActive<H>(trust: Option<Record<H>>, now: int) {
    && trust.Some? && trust.value.status.Accepted?
    && !(trust.value.expiresAt.Some? && trust.value.expiresAt.value < now)
  }

  datatype TrustVerdict = Allowed | AlreadyActive | TrustBlocked | NotAllowed

  /** `validateTrustRequest` */
  function ValidateTrustRequest<H>(trust: Option<Record<H>>, now: int): TrustVerdict {
    if IsTrustActive(trust, now) then AlreadyActive
    else if trust.Some? && trust.value.status.Blocked? then TrustBlocked
    else if trust.Some? && trust.value.retryAfterDate.Some? && trust.value.retryAfterDate.value > now then NotAllowed
    else Allowed
  }

  /** `validateTrustResponse`, on the record looked up under the flipped pair. */
  function ValidateTrustResponse<H>(senderId: string, flipped: Option<Record<H>>): TrustVerdict {
    if flipped.None? || !flipped.value.status.Pending? || flipped.value.receiverId != senderId then NotAllowed else Allowed
  }

  /** `canRetryTrust` */
  predicate CanRetryTrust<H>(trust: Option<Record<H>>, now: int) {
    if trust.None? then true
    else if trust.value.status.Accepted? || trust.value.status.Blocked? then false
    else trust.value.retryAfterDate.Some? ==> trust.value.retryAfterDate.value <= now
  }

  /** Which refusal a trust request or response gets, from the record alone; active trust is told first. */
  lemma RefusalsSay<H>(senderId: string, r: Record<H>, now: int)
    ensures var answer := ValidateTrustRequest(Some(r), now);
            && (answer == AlreadyActive <==> r.status == Accepted && (r.expiresAt.Some? ==> now <= r.expiresAt.value))
            && (answer == TrustBlocked <==> r.status == Blocked)
            && (answer == NotAllowed <==>
                  answer != AlreadyActive && r.status != Blocked && r.retryAfterDate.Some? && now < r.retryAfterDate.value)
    ensures ValidateTrustRequest<H>(None, now) == Allowed && ValidateTrustResponse<H>(senderId, None) == NotAllowed
    ensures ValidateTrustResponse(senderId, Some(r)) == if r.status == Pending && r.receiverId == senderId then Allowed else NotAllowed
  {
  }

  /** The two retry rules part only over an accepted record that has run out and sets no later retry date. */
  lemma RetryRulesDiffer<H>(trust: Option<Record<H>>, now: int)
    ensures CanRetryTrust(trust, now) ==> ValidateTrustRequest(trust, now) == Allowed
    ensures ValidateTrustRequest(trust, now) == Allowed && !CanRetryTrust(trust, now) <==>
              && trust.Some? && trust.value.status.Accepted?
              && trust.value.expiresAt.Some? && trust.value.expiresAt.value < now
              && !(trust.value.retryAfterDate.Some? && trust.value.retryAfterDate.value > now)
  {
  }

  /** Trust runs out once and for all: as long as the record stays, activity only ends, right after `expiresAt`. */
  lemma ActiveUntilExpiry<H>(trust: Option<Record<H>>, t: int, t': int)
    requires t <= t'
    ensures IsTrustActive(trust, t') ==> IsTrustActive(trust, t)
    ensures IsTrustActive(trust, t) && !IsTrustActive(trust, t') <==>
              && trust.Some? && trust.value.status.Accepted? && trust.value.expiresAt.Some?
              && t <= trust.value.expiresAt.value < t'
  {
  }
}
