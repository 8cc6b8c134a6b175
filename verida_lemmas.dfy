/** Properties that relate several calls of the helper, or that read a
    call log: the messaging quirk, the order of the lookups made while a
    credential is read, the stale-profile behaviour and the deep link. */
module VeridaLemmas {
  import opened Wrappers
  import opened VeridaSpec

  // ---------------------------------------------------------------------
  // Session
  // ---------------------------------------------------------------------

  /** Logging out twice leaves the same fields as logging out once. */
  lemma LogoutIdempotent(s: Session)
    ensures Logout(Logout(s)) == Logout(s)
  {
  }

  /** After `logout` no channel survives: the next `sendMessage` rejects
      with "No app context" without reaching the network. */
  lemma SendAfterLogoutFails(s: Session, net: Network, m: MessageData)
    ensures SendMessage(Logout(s), net, m) == Outcome(Logout(s), [], Err(NoAppContextError))
  {
  }

  /** The lazy channel after a successful `connect` on a session without a
      cached channel: the first `sendMessage` caches the channel but rejects
      and sends nothing; the second sends exactly one envelope through that
      channel to the account DID and resolves with true when the send does,
      or, for a null payload, rejects with a `TypeError` and sends nothing. */
  lemma FirstSendAfterConnectFails(s: Session, net: Network, ctx: Context, first: MessageData, second: MessageData)
    requires s.messaging.None?
    requires net.accountDid(ctx).Ok? && net.getMessaging(ctx).Ok?
    ensures
      var connected := Connect(s, net, ctx).session;
      var channel := net.getMessaging(ctx).value;
      var account := net.accountDid(ctx).value;
      var firstSend := SendMessage(connected, net, first);
      var secondSend := SendMessage(firstSend.session, net, second);
      && firstSend.result == Err(NoAppContextError)
      && Sent(firstSend.calls) == []
      && firstSend.session.messaging == Some(channel)
      && (second.NullPayload? ==> secondSend == Outcome(firstSend.session, [], Err(TypeError("firstName"))))
      && (second.Payload? ==>
            && Sent(secondSend.calls) == [MessageEnvelope(account, second)]
            && secondSend.calls == [Send(channel, MessageEnvelope(account, second))]
            && (secondSend.result == Ok(true) <==> net.send(channel, MessageEnvelope(account, second)).Ok?))
  {
    var connected := Connect(s, net, ctx).session;
    var channel := net.getMessaging(ctx).value;
    var firstSend := SendMessage(connected, net, first);
    assert firstSend.calls == [GetMessaging(ctx)];
    if second.Payload? {
      var envelope := MessageEnvelope(net.accountDid(ctx).value, second);
      var secondSend := SendMessage(firstSend.session, net, second);
      assert secondSend.calls == [Send(channel, envelope)];
      assert Sent([Send(channel, envelope)]) == [envelope] + Sent([]);
    }
  }

  /** A `connect` whose account lookup fails still stores the new context,
      while the connected flag and the DID keep their old values; messaging
      then goes through that context. */
  lemma FailedConnectKeepsContext(s: Session, net: Network, ctx: Context, m: MessageData)
    requires net.accountDid(ctx).Err?
    ensures
      var c := Connect(s, net, ctx).session;
      && c.context == Some(ctx) && c.connected == s.connected && c.did == s.did
      && (s.messaging.None? ==> SendMessage(c, net, m).calls == [GetMessaging(ctx)])
  {
  }

  /** With a context present, a repeated `initialiseMessagingInstance` after
      the one that cached the channel resolves with that channel. */
  lemma InitialiseTwice(s: Session, net: Network)
    requires s.messaging.None? && s.context.Some?
    requires net.getMessaging(s.context.value).Ok?
    ensures
      var first := InitialiseMessaging(s, net);
      var second := InitialiseMessaging(first.session, net);
      && first.result == Err(NoAppContextError)
      && second == Outcome(first.session, [], Ok(net.getMessaging(s.context.value).value))
  {
  }

  // ---------------------------------------------------------------------
  // Profile lookups in a call log
  // ---------------------------------------------------------------------

  /** The profile-store and schema lookups of a call log, in order. */
  function Lookups(calls: seq<Call>): (r: seq<Call>)
    ensures (forall c :: c in calls ==> !c.OpenPublicProfile? && !c.GetSchema?) ==> r == []
  {
    if calls == [] then []
    else LookupOf(calls[0]) + Lookups(calls[1..])
  }

  /** The lookups a single call contributes. */
  function LookupOf(c: Call): seq<Call> {
    if c.OpenPublicProfile? || c.GetSchema? then [c] else []
  }

  lemma LookupsCons(c: Call, rest: seq<Call>)
    ensures Lookups([c] + rest) == LookupOf(c) + Lookups(rest)
  {
    assert ([c] + rest)[1..] == rest;
  }

  lemma {:induction false} LookupsAppend(a: seq<Call>, b: seq<Call>)
    ensures Lookups(a + b) == Lookups(a) + Lookups(b)
    decreases |a|
  {
    if a == [] {
      assert a + b == b;
    } else {
      assert a == [a[0]] + a[1..];
      assert a + b == [a[0]] + (a[1..] + b);
      LookupsCons(a[0], a[1..]);
      LookupsCons(a[0], a[1..] + b);
      LookupsAppend(a[1..], b);
    }
  }

  /** One `getProfile` makes exactly one profile-store lookup, with the
      context name the `||` fallback picks. */
  lemma GetProfileLookup(s: Session, net: Network, vault: string, did: string, contextName: Option<string>)
    ensures Lookups(GetProfile(s, net, vault, did, contextName).calls)
      == [OpenPublicProfile(did, ProfileContextName(contextName, vault), BasicProfile)]
  {
    var o := GetProfile(s, net, vault, did, contextName);
    var open := OpenPublicProfile(did, ProfileContextName(contextName, vault), BasicProfile);
    if |o.calls| == 1 {
      assert o.calls == [open];
      assert Lookups(o.calls) == [open] + Lookups([]);
    } else {
      assert o.calls == [open, GetMany(did, ProfileContextName(contextName, vault))];
      assert o.calls[1..] == [GetMany(did, ProfileContextName(contextName, vault))];
      assert Lookups(o.calls[1..]) == [] + Lookups([]);
    }
  }

  /** The context name used for the issuer: the Credential Manager name when
      the credential carries exactly that name, the vault name otherwise. */
  function IssuerLookupContext(claims: Claims, vault: string): string {
    if claims.veridaContextName == Some(CredentialManagerContextName) then CredentialManagerContextName
    else vault
  }

  /** A credential that was read made exactly three lookups: the issuer's
      profile (with the one context-name override), then the subject's
      profile (always with the vault name), then the schema through the
      context opened for the credential's origin. */
  lemma ReadLookupOrder(s: Session, net: Network, vault: string, origin: string, uri: string)
    requires ReadVerifiedCredential(s, net, vault, origin, uri).result.Ok?
    ensures
      var o := ReadVerifiedCredential(s, net, vault, origin, uri);
      var credential := o.result.value.verifiableCredential;
      var externalContext := OpenCredential(net, uri).result.value.0;
      Lookups(o.calls) == [
        OpenPublicProfile(credential.vc.value.issuer, IssuerLookupContext(credential.vc.value, vault), BasicProfile),
        OpenPublicProfile(credential.vc.value.sub, vault, BasicProfile),
        GetSchema(externalContext, credential.credentialSubject.value.schema)]
  {
    var fetched := OpenCredential(net, uri);
    var externalContext := fetched.result.value.0;
    var credential := fetched.result.value.1;
    var claims := credential.vc.value;
    var schemaId := credential.credentialSubject.value.schema;
    var issuer := GetProfile(s, net, vault, claims.issuer, IssuerContextOverride(claims));
    var subject := GetProfile(issuer.session, net, vault, claims.sub, None);
    var schema := GetSchemaSpecs(net, schemaId, externalContext);
    ReadCallsOnSuccess(s, net, vault, origin, uri);
    GetProfileLookup(s, net, vault, claims.issuer, IssuerContextOverride(claims));
    GetProfileLookup(issuer.session, net, vault, claims.sub, None);
    assert Lookups(schema.calls) == [GetSchema(externalContext, schemaId)] + Lookups([]);
    LookupsOfStages(fetched.calls, issuer.calls, subject.calls, schema.calls);
  }

  lemma LookupsOfStages(opening: seq<Call>, issuer: seq<Call>, subject: seq<Call>, schema: seq<Call>)
    requires forall c :: c in opening ==> !c.OpenPublicProfile? && !c.GetSchema?
    requires |Lookups(issuer)| == 1 && |Lookups(subject)| == 1 && |Lookups(schema)| == 1
    ensures Lookups(opening + issuer + subject + schema)
      == [Lookups(issuer)[0], Lookups(subject)[0], Lookups(schema)[0]]
  {
    assert Lookups(opening) == [];
    LookupsAppend(opening, issuer);
    assert Lookups(opening + issuer) == [Lookups(issuer)[0]];
    LookupsAppend(opening + issuer, subject);
    assert Lookups(opening + issuer + subject) == [Lookups(issuer)[0], Lookups(subject)[0]];
    LookupsAppend(opening + issuer + subject, schema);
  }

  /** The call log of a credential that was read, stage by stage. */
  lemma ReadCallsOnSuccess(s: Session, net: Network, vault: string, origin: string, uri: string)
    requires ReadVerifiedCredential(s, net, vault, origin, uri).result.Ok?
    ensures
      var o := ReadVerifiedCredential(s, net, vault, origin, uri);
      var fetched := OpenCredential(net, uri);
      var credential := fetched.result.value.1;
      var claims := credential.vc.value;
      var issuer := GetProfile(s, net, vault, claims.issuer, IssuerContextOverride(claims));
      var subject := GetProfile(issuer.session, net, vault, claims.sub, None);
      var schema := GetSchemaSpecs(net, credential.credentialSubject.value.schema, fetched.result.value.0);
      && o.calls == fetched.calls + issuer.calls + subject.calls + schema.calls
      && o.result.value.verifiableCredential == credential
  {
  }

  /** When the issuer lookup rejects, the subject and the schema are never
      looked up; when the subject lookup rejects, the schema is never looked
      up.  Either way the result is that lookup's rejection. */
  lemma ReadStopsAtFailedLookup(s: Session, net: Network, vault: string, origin: string, uri: string)
    requires OpenCredential(net, uri).result.Ok?
    ensures
      var o := ReadVerifiedCredential(s, net, vault, origin, uri);
      var claims := OpenCredential(net, uri).result.value.1.vc.value;
      var issuer := GetProfile(s, net, vault, claims.issuer, IssuerContextOverride(claims));
      var subject := GetProfile(issuer.session, net, vault, claims.sub, None);
      && (issuer.result.Err? ==>
            o.result == Err(issuer.result.error) && Lookups(o.calls) == Lookups(issuer.calls)
            && |Lookups(o.calls)| == 1)
      && (issuer.result.Ok? && subject.result.Err? ==>
            o.result == Err(subject.result.error)
            && Lookups(o.calls) == Lookups(issuer.calls) + Lookups(subject.calls)
            && |Lookups(o.calls)| == 2)
  {
    var opening := OpenCredential(net, uri);
    var claims := opening.result.value.1.vc.value;
    var issuer := GetProfile(s, net, vault, claims.issuer, IssuerContextOverride(claims));
    var subject := GetProfile(issuer.session, net, vault, claims.sub, None);
    assert Lookups(opening.calls) == [];
    GetProfileLookup(s, net, vault, claims.issuer, IssuerContextOverride(claims));
    GetProfileLookup(issuer.session, net, vault, claims.sub, None);
    LookupsAppend(opening.calls, issuer.calls);
    LookupsAppend(opening.calls + issuer.calls, subject.calls);
  }

  /** A credential without `credentialSubject` is rejected only after both
      profile lookups ran, so `profile` is left as the subject lookup set it
      although no result is returned. */
  lemma MissingSubjectAfterProfiles(s: Session, net: Network, vault: string, origin: string, uri: string)
    requires OpenCredential(net, uri).result.Ok?
    requires OpenCredential(net, uri).result.value.1.credentialSubject.None?
    ensures
      var o := ReadVerifiedCredential(s, net, vault, origin, uri);
      var claims := OpenCredential(net, uri).result.value.1.vc.value;
      var issuer := GetProfile(s, net, vault, claims.issuer, IssuerContextOverride(claims));
      var subject := GetProfile(issuer.session, net, vault, claims.sub, None);
      (issuer.result.Ok? && subject.result.Ok?) ==>
        && o.result == Err(TypeError("schema"))
        && o.session.profile == subject.result.value
        && (net.openPublicProfile(claims.sub, vault, BasicProfile) == Ok(false) ==>
              o.session.profile == issuer.result.value)
  {
  }

  /** When decoding, opening the external context, fetching, verifying or
      taking the first credential fails, nothing is looked up, no field
      changes and the error is the one that step rejected with. */
  lemma ReadFailsBeforeLookups(s: Session, net: Network, vault: string, origin: string, uri: string)
    requires OpenCredential(net, uri).result.Err?
    ensures
      var o := ReadVerifiedCredential(s, net, vault, origin, uri);
      && o.session == s
      && o.result == Err(OpenCredential(net, uri).result.error)
      && Lookups(o.calls) == []
  {
  }

  /** The stale profile: when the subject has no public profile store, the
      subject profile that is returned is the issuer profile that the first
      lookup left in `this.profile`. */
  lemma SubjectWithoutStoreRepeatsIssuer(s: Session, net: Network, vault: string, origin: string, uri: string)
    requires ReadVerifiedCredential(s, net, vault, origin, uri).result.Ok?
    requires net.openPublicProfile(
      ReadVerifiedCredential(s, net, vault, origin, uri).result.value.verifiableCredential.vc.value.sub,
      vault, BasicProfile) == Ok(false)
    ensures
      var r := ReadVerifiedCredential(s, net, vault, origin, uri).result.value;
      r.subjectProfile == r.issuerProfile
  {
  }

  // ---------------------------------------------------------------------
  // Deep link
  // ---------------------------------------------------------------------

  /** The raw text after the `uri=` of a deep link is the still-encoded
      input, character for character. */
  lemma PublicUriRoundTrip(origin: string, uri: string)
    ensures UriParameter(origin, PublicUri(origin, uri)) == Some(uri)
  {
    var link := PublicUri(origin, uri);
    var prefix := origin + CredentialPath;
    assert link == prefix + uri;
    assert link[..|prefix|] == prefix;
  }
}
