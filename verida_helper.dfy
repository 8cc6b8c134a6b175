/** The `VeridaHelper` class: the same instance fields as the source, updated
    step by step in the source's order.  Each method is proved to leave the
    fields, and to return the recorded calls and the result, exactly as its
    specification function in `VeridaSpec` says (`InitialiseMessaging` for
    `InitialiseMessagingInstance`, the same name otherwise; `Logout` changes
    fields only and `GetSchemaSpecs` none), so everything proved there about
    one call or a run of calls holds of the class. */
module Helper {
  import opened Wrappers
  import opened VeridaSpec

  class VeridaHelper {
    /** `config.veridaVaulContextName`, the default profile context. */
    const vaultContextName: string
    var profile: Option<ProfileRecord>
    var context: Option<Context>
    var did: string
    var connected: bool
    var didDocument: Option<DidDocument>
    var messagingInstance: Option<Messaging>

    /** The instance fields as a session value. */
    function State(): Session
      reads this
    {
      Session(context, did, connected, messagingInstance, profile, didDocument)
    }

    constructor (vault: string)
      ensures State() == InitialSession() && SessionInvariant(State())
      ensures vaultContextName == vault
    {
      vaultContextName := vault;
      did := "";
      context := None;
      connected := false;
      messagingInstance := None;
      profile := None;
      didDocument := None;
    }

    method Connect(net: Network, ctx: Context) returns (calls: seq<Call>, r: Result<(), Error>)
      modifies this
      ensures var o := VeridaSpec.Connect(old(State()), net, ctx);
        State() == o.session && calls == o.calls && r == o.result
    {
      context := Some(ctx);
      calls := [GetAccountDid(ctx)];
      var account := net.accountDid(ctx);
      if account.Err? {
        return calls, Err(account.error);
      }
      did := account.value;
      if context.Some? {
        connected := true;
      }
      r := Ok(());
    }

    method GetProfile(net: Network, profileDid: string, contextName: Option<string>)
      returns (calls: seq<Call>, r: Result<Option<ProfileRecord>, Error>)
      modifies this
      ensures var o := VeridaSpec.GetProfile(old(State()), net, vaultContextName, profileDid, contextName);
        State() == o.session && calls == o.calls && r == o.result
    {
      var profileContextName := ProfileContextName(contextName, vaultContextName);
      calls := [OpenPublicProfile(profileDid, profileContextName, BasicProfile)];
      var profileInstance := net.openPublicProfile(profileDid, profileContextName, BasicProfile);
      if profileInstance.Err? {
        return calls, Err(profileInstance.error);
      }
      if profileInstance.value {
        calls := calls + [GetMany(profileDid, profileContextName)];
        var fetched := net.getMany(profileDid, profileContextName, BasicProfile);
        if fetched.Err? {
          return calls, Err(fetched.error);
        }
        profile := fetched.value;
        if profile.Some? {
          profile := Some(profile.value["did" := profileDid]);
        }
      }
      r := Ok(profile);
    }

    method InitialiseMessagingInstance(net: Network) returns (calls: seq<Call>, r: Result<Messaging, Error>)
      modifies this
      ensures var o := InitialiseMessaging(old(State()), net);
        State() == o.session && calls == o.calls && r == o.result
    {
      calls := [];
      if messagingInstance.Some? {
        return calls, Ok(messagingInstance.value);
      }
      if context.Some? {
        calls := [GetMessaging(context.value)];
        var channel := net.getMessaging(context.value);
        if channel.Err? {
          return calls, Err(channel.error);
        }
        messagingInstance := Some(channel.value);
      }
      r := Err(NoAppContextError);
    }

    method SendMessage(net: Network, messageData: MessageData) returns (calls: seq<Call>, r: Result<bool, Error>)
      modifies this
      ensures var o := VeridaSpec.SendMessage(old(State()), net, messageData);
        State() == o.session && calls == o.calls && r == o.result
    {
      var data := MessageBody([messageData]);
      var config := SendConfig(did, RecipientContextName);
      var messaging;
      calls, messaging := InitialiseMessagingInstance(net);
      if messaging.Err? {
        return calls, Err(messaging.error);
      }
      if messageData.NullPayload? {
        return calls, Err(TypeError("firstName"));
      }
      var subject := SubjectPrefix + TemplateText(messageData.firstName);
      var envelope := Envelope(did, MessageType, data, subject, config);
      calls := calls + [Send(messaging.value, envelope)];
      var sent := net.send(messaging.value, envelope);
      if sent.Err? {
        return calls, Err(sent.error);
      }
      r := Ok(true);
    }

    method GetSchemaSpecs(net: Network, schema: string, schemaContext: Context)
      returns (calls: seq<Call>, r: Result<SchemaSpec, Error>)
      ensures Reply(calls, r) == VeridaSpec.GetSchemaSpecs(net, schema, schemaContext)
    {
      calls := [GetSchema(schemaContext, schema)];
      r := net.getSchemaSpecification(schemaContext, schema);
    }

    method ReadVerifiedCredential(net: Network, origin: string, uri: string)
      returns (calls: seq<Call>, r: Result<VerificationResult, Error>)
      modifies this
      ensures var o := VeridaSpec.ReadVerifiedCredential(old(State()), net, vaultContextName, origin, uri);
        State() == o.session && calls == o.calls && r == o.result
    {
      var decodedUri := net.decodeBase64(uri);
      var url := net.explodeVeridaUri(decodedUri);
      if url.Err? {
        return [], Err(url.error);
      }
      calls := [OpenExternalContext(url.value.contextName, url.value.did)];
      var externalContext := net.openExternalContext(url.value.contextName, url.value.did);
      if externalContext.Err? {
        return calls, Err(externalContext.error);
      }
      calls := calls + [FetchVeridaUri(decodedUri, externalContext.value)];
      var jwt := net.fetchVeridaUri(decodedUri, externalContext.value);
      if jwt.Err? {
        return calls, Err(jwt.error);
      }
      calls := calls + [VerifyPresentation(jwt.value)];
      var decodedPresentation := net.verifyPresentation(jwt.value);
      if decodedPresentation.Err? {
        return calls, Err(decodedPresentation.error);
      }
      if |decodedPresentation.value.verifiableCredential| == 0 {
        return calls, Err(TypeError("vc"));
      }
      var verifiableCredential := decodedPresentation.value.verifiableCredential[0];
      if verifiableCredential.vc.None? {
        return calls, Err(TypeError("veridaContextName"));
      }
      var vc := verifiableCredential.vc.value;

      var veridaContextName: Option<string> := None;
      if vc.veridaContextName == Some(CredentialManagerContextName) {
        veridaContextName := vc.veridaContextName;
      }

      var issuerCalls, issuerProfile := GetProfile(net, vc.issuer, veridaContextName);
      calls := calls + issuerCalls;
      if issuerProfile.Err? {
        return calls, Err(issuerProfile.error);
      }
      var subjectCalls, subjectProfile := GetProfile(net, vc.sub, None);
      calls := calls + subjectCalls;
      if subjectProfile.Err? {
        return calls, Err(subjectProfile.error);
      }
      if verifiableCredential.credentialSubject.None? {
        return calls, Err(TypeError("schema"));
      }
      var schemaCalls, schemaSpec :=
        GetSchemaSpecs(net, verifiableCredential.credentialSubject.value.schema, externalContext.value);
      calls := calls + schemaCalls;
      if schemaSpec.Err? {
        return calls, Err(schemaSpec.error);
      }
      var publicUri := origin + CredentialPath + uri;
      r := Ok(VerificationResult(publicUri, schemaSpec.value, issuerProfile.value, subjectProfile.value,
                                 verifiableCredential));
    }

    method GetDidDocument(net: Network, documentDid: string) returns (calls: seq<Call>, r: Result<(), Error>)
      modifies this
      ensures var o := VeridaSpec.GetDidDocument(old(State()), net, documentDid);
        State() == o.session && calls == o.calls && r == o.result
    {
      calls := [GetDid(documentDid)];
      var document := net.resolveDid(documentDid);
      if document.Err? {
        return calls, Err(document.error);
      }
      didDocument := Some(document.value);
      r := Ok(());
    }

    method Logout()
      modifies this
      ensures State() == VeridaSpec.Logout(old(State()))
    {
      context := None;
      connected := false;
      did := "";
      messagingInstance := None;
    }
  }
}
