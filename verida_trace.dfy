/** Runs of helper operations.  The caller may go on after any operation
    rejects (it catches the error), so a run applies every operation in turn
    and collects the calls they make.  The lemmas here hold of every run:
    the session invariant, the reuse of a cached messaging channel until
    logout, and the absence of any messaging before a connect. */
module VeridaTrace {
  import opened Wrappers
  import opened VeridaSpec

  /** One public operation of the helper with its arguments. */
  datatype Op =
    | ConnectOp(ctx: Context)
    | GetProfileOp(did: string, contextName: Option<string>)
    | SendMessageOp(data: MessageData)
    | GetSchemaSpecsOp(schema: string, ctx: Context)
    | ReadVerifiedCredentialOp(origin: string, uri: string)
    | GetDidDocumentOp(did: string)
    | LogoutOp

  datatype Trace = Trace(session: Session, calls: seq<Call>)

  function Step(s: Session, net: Network, vault: string, op: Op): Trace {
    match op
    case ConnectOp(ctx) =>
      var o := Connect(s, net, ctx); Trace(o.session, o.calls)
    case GetProfileOp(did, contextName) =>
      var o := GetProfile(s, net, vault, did, contextName); Trace(o.session, o.calls)
    case SendMessageOp(data) =>
      var o := SendMessage(s, net, data); Trace(o.session, o.calls)
    case GetSchemaSpecsOp(schema, ctx) =>
      Trace(s, GetSchemaSpecs(net, schema, ctx).calls)
    case ReadVerifiedCredentialOp(origin, uri) =>
      var o := ReadVerifiedCredential(s, net, vault, origin, uri); Trace(o.session, o.calls)
    case GetDidDocumentOp(did) =>
      var o := GetDidDocument(s, net, did); Trace(o.session, o.calls)
    case LogoutOp =>
      Trace(Logout(s), [])
  }

  function Run(s: Session, net: Network, vault: string, ops: seq<Op>): Trace
    decreases |ops|
  {
    if ops == [] then Trace(s, [])
    else
      var first := Step(s, net, vault, ops[0]);
      var rest := Run(first.session, net, vault, ops[1..]);
      Trace(rest.session, first.calls + rest.calls)
  }

  // ---------------------------------------------------------------------
  // The session invariant
  // ---------------------------------------------------------------------

  lemma StepPreservesInvariant(s: Session, net: Network, vault: string, op: Op)
    requires SessionInvariant(s)
    ensures SessionInvariant(Step(s, net, vault, op).session)
  {
  }

  /** Every session reached from a valid one, in particular from the one
      the constructor leaves, satisfies the invariant. */
  lemma {:induction false} RunPreservesInvariant(s: Session, net: Network, vault: string, ops: seq<Op>)
    requires SessionInvariant(s)
    ensures SessionInvariant(Run(s, net, vault, ops).session)
    decreases |ops|
  {
    if ops != [] {
      StepPreservesInvariant(s, net, vault, ops[0]);
      RunPreservesInvariant(Step(s, net, vault, ops[0]).session, net, vault, ops[1..]);
    }
  }

  // ---------------------------------------------------------------------
  // The cached messaging channel
  // ---------------------------------------------------------------------

  /** No call of the log fetches a channel, and every send goes through `m`. */
  predicate UsesOnlyChannel(calls: seq<Call>, m: Messaging) {
    forall c :: c in calls ==> !c.GetMessaging? && (c.Send? ==> c.messaging == m)
  }

  lemma ReadCallsFetchNoChannel(s: Session, net: Network, vault: string, origin: string, uri: string)
    ensures forall c :: c in ReadVerifiedCredential(s, net, vault, origin, uri).calls ==>
      !c.GetMessaging? && !c.Send?
  {
    var o := ReadVerifiedCredential(s, net, vault, origin, uri);
    var opening := OpenCredential(net, uri);
    if opening.result.Ok? {
      var credential := opening.result.value.1;
      var claims := credential.vc.value;
      var issuer := GetProfile(s, net, vault, claims.issuer, IssuerContextOverride(claims));
      var subject := GetProfile(issuer.session, net, vault, claims.sub, None);
      if issuer.result.Err? {
        assert o.calls == opening.calls + issuer.calls;
      } else if subject.result.Err? || credential.credentialSubject.None? {
        assert o.calls == opening.calls + issuer.calls + subject.calls;
      } else {
        var schema := GetSchemaSpecs(net, credential.credentialSubject.value.schema, opening.result.value.0);
        assert o.calls == opening.calls + issuer.calls + subject.calls + schema.calls;
      }
    }
  }

  lemma StepKeepsChannel(s: Session, net: Network, vault: string, op: Op, m: Messaging)
    requires s.messaging == Some(m) && !op.LogoutOp?
    ensures Step(s, net, vault, op).session.messaging == Some(m)
    ensures UsesOnlyChannel(Step(s, net, vault, op).calls, m)
  {
    if op.ReadVerifiedCredentialOp? {
      ReadCallsFetchNoChannel(s, net, vault, op.origin, op.uri);
    }
  }

  /** Once a channel is cached it is the only one used, and no other is
      fetched, until the next logout; a later connect does not replace it. */
  lemma {:induction false} ChannelReusedUntilLogout(s: Session, net: Network, vault: string, ops: seq<Op>, m: Messaging)
    requires s.messaging == Some(m)
    requires forall op :: op in ops ==> !op.LogoutOp?
    ensures Run(s, net, vault, ops).session.messaging == Some(m)
    ensures UsesOnlyChannel(Run(s, net, vault, ops).calls, m)
    decreases |ops|
  {
    if ops != [] {
      StepKeepsChannel(s, net, vault, ops[0], m);
      assert forall op :: op in ops[1..] ==> op in ops;
      ChannelReusedUntilLogout(Step(s, net, vault, ops[0]).session, net, vault, ops[1..], m);
    }
  }

  // ---------------------------------------------------------------------
  // No messaging without a context
  // ---------------------------------------------------------------------

  /** No call of the log fetches a channel or sends a message. */
  predicate NoMessaging(calls: seq<Call>) {
    forall c :: c in calls ==> !c.GetMessaging? && !c.Send?
  }

  lemma StepWithoutContext(s: Session, net: Network, vault: string, op: Op)
    requires SessionInvariant(s) && s.context.None? && !op.ConnectOp?
    ensures Step(s, net, vault, op).session.context.None?
    ensures NoMessaging(Step(s, net, vault, op).calls)
  {
    if op.ReadVerifiedCredentialOp? {
      ReadCallsFetchNoChannel(s, net, vault, op.origin, op.uri);
    }
  }

  /** A disconnected helper (as constructed, or after logout) fetches no
      channel and sends no message until it is connected again. */
  lemma {:induction false} NoMessagingBeforeConnect(s: Session, net: Network, vault: string, ops: seq<Op>)
    requires SessionInvariant(s) && s.context.None?
    requires forall op :: op in ops ==> !op.ConnectOp?
    ensures Run(s, net, vault, ops).session.context.None?
    ensures NoMessaging(Run(s, net, vault, ops).calls)
    ensures Sent(Run(s, net, vault, ops).calls) == []
    decreases |ops|
  {
    if ops != [] {
      StepWithoutContext(s, net, vault, ops[0]);
      StepPreservesInvariant(s, net, vault, ops[0]);
      assert forall op :: op in ops[1..] ==> op in ops;
      NoMessagingBeforeConnect(Step(s, net, vault, ops[0]).session, net, vault, ops[1..]);
    }
  }
}
