/** Identities of the form `account$domain`, and who may delegate for whom. */
module Identity {
  import opened Wrappers
  import opened OrderedMap
  import opened Json

  datatype Parsed = Parsed(accountName: string, domainName: string)

  function Before(s: string, c: char): string {
    if s == "" || s[0] == c then "" else [s[0]] + Before(s[1..], c)
  }

  function After(s: string, c: char): Option<string> {
    if s == "" then None else if s[0] == c then Some(s[1..]) else After(s[1..], c)
  }

  /** The first two pieces of `split('$')`; anything after a second `$` is ignored. */
  function ParseIdentity(identity: string): Option<Parsed> {
    var rest := After(identity, '$');
    if Before(identity, '$') == "" || rest.None? || Before(rest.value, '$') == "" then None
    else Some(Parsed(Before(identity, '$'), Before(rest.value, '$')))
  }

  function ParseJson(j: Json): Option<Parsed> {
    if j.Str? then ParseIdentity(j.s) else None
  }

  /** `isDelegationAllowed` */
  predicate IsDelegationAllowed(artifact: OMap<Name, Json>) {
    var delegation, from := FieldOf(artifact, Delegation), FieldOf(artifact, From);
    var signedBy := Member(delegation, SignedBy);
    && Truthy(delegation) && Truthy(from) && Truthy(signedBy)
    && MayDelegate(from, signedBy)
  }

  /** The delegator is the sender, or an account of the sender's domain. */
  predicate MayDelegate(from: Json, signedBy: Json) {
    && ParseJson(from).Some? && ParseJson(signedBy).Some?
    && (from == signedBy || ParseJson(from).value.domainName == ParseJson(signedBy).value.domainName)
  }

  // ---------------------------------------------------------- on actual identities

  /** Non-empty and without `$`: an account or a domain. */
  predicate IsPart(s: string) {
    s != "" && '$' !in s
  }

  lemma {:induction false} SplitAt(a: string, rest: string)
    requires '$' !in a
    ensures Before(a + "$" + rest, '$') == a && After(a + "$" + rest, '$') == Some(rest)
  {
    var s := a + "$" + rest;
    if a == "" {
      assert s == "$" + rest && s[1..] == rest;
    } else {
      SplitAt(a[1..], rest);
      assert s[1..] == a[1..] + "$" + rest && s[0] == a[0];
      assert a == [a[0]] + a[1..];
    }
  }

  lemma {:induction false} NoSplit(s: string)
    requires '$' !in s
    ensures Before(s, '$') == s && After(s, '$').None?
  {
    if s != "" {
      NoSplit(s[1..]);
      assert s == [s[0]] + s[1..];
    }
  }

  /** `account$domain` parses to its two parts, whatever follows another `$`. */
  lemma ParsesToItsParts(a: string, d: string, rest: string)
    requires IsPart(a) && IsPart(d)
    ensures ParseIdentity(a + "$" + d) == Some(Parsed(a, d))
    ensures ParseIdentity(a + "$" + (d + "$" + rest)) == Some(Parsed(a, d))
  {
    SplitAt(a, d);
    SplitAt(a, d + "$" + rest);
    SplitAt(d, rest);
    NoSplit(d);
  }

  /** Without a `$`, or with an empty account or domain, nothing parses. */
  lemma ParsesToNothing(s: string, rest: string)
    ensures '$' !in s ==> ParseIdentity(s).None?
    ensures ParseIdentity("$" + s).None?
    ensures '$' !in s ==> ParseIdentity(s + "$").None? && ParseIdentity(s + "$" + ("$" + rest)).None?
  {
    SplitAt("", s);
    assert "" + "$" + s == "$" + s;
    if '$' !in s {
      NoSplit(s);
      SplitAt(s, "");
      assert s + "$" + "" == s + "$";
      SplitAt(s, "$" + rest);
      SplitAt("", rest);
      assert "" + "$" + rest == "$" + rest;
    }
  }

  /** What makes an artifact one sent by `from` with a delegation signed by `signedBy`. */
  predicate IsDelegated(artifact: OMap<Name, Json>, from: string, signedBy: string) {
    && FieldOf(artifact, From) == Str(from)
    && FieldOf(artifact, Delegation).Obj? && Member(FieldOf(artifact, Delegation), SignedBy) == Str(signedBy)
  }

  /** Accounts may delegate for each other exactly within one domain. */
  lemma DelegatesWithinADomainIff(artifact: OMap<Name, Json>, a: string, d: string, b: string, e: string)
    requires IsPart(a) && IsPart(d) && IsPart(b) && IsPart(e) && IsDelegated(artifact, a + "$" + d, b + "$" + e)
    ensures IsDelegationAllowed(artifact) <==> d == e
  {
    ParsesToItsParts(a, d, "");
    ParsesToItsParts(b, e, "");
    if a + "$" + d == b + "$" + e {
      SplitAt(a, d);
      SplitAt(b, e);
    }
  }

  /** A sender or delegator that is no identity never passes. */
  lemma NoIdentityNeverPasses(artifact: OMap<Name, Json>, from: string, signedBy: string)
    requires IsDelegated(artifact, from, signedBy) && (ParseIdentity(from).None? || ParseIdentity(signedBy).None?)
    ensures !IsDelegationAllowed(artifact)
  {
  }

  /** Nor does an artifact that names no sender, no delegation or no signer in text. */
  lemma NothingToAllow(artifact: OMap<Name, Json>)
    requires var d := FieldOf(artifact, Delegation);
             !FieldOf(artifact, From).Str? || !d.Obj? || !Member(d, SignedBy).Str?
    ensures !IsDelegationAllowed(artifact)
  {
  }
}
