/**
 * src/greet_frontend/src/index.js: the variant of `setupAuth` that creates the `AuthClient`
 * with or without a session key and asks `isAuthenticated()` without logging in first.
 */
module GreetIndex {
  import opened Wrappers
  import opened Numerals
  import opened Delegations
  import QueryParams
  import FrontendAuth
  import FrontendIndex
  import HandoffPayload

  /** The `options` given to `AuthClient.create`: the session identity's key, if one was set. */
  datatype ClientOptions = ClientOptions(identity: Option<seq<Byte>>)

  /** The greet actor: the default one, or one on an agent built with `options.identity`. */
  datatype Actor = GreetActor | AgentActor(identity: Option<seq<Byte>>)

  /**
   * What one `setupAuth` meets: whether a `SessionIdentity` binding is in scope (the file
   * neither defines nor imports one, so `new SessionIdentity` throws a ReferenceError unless
   * another script provides it), what `isAuthenticated()` says, and the identity's
   * `_delegation` property (`None`: `undefined`).
   */
  datatype GreetRun = GreetRun(sessionIdentityInScope: bool, authenticated: bool, delegation: Option<DelegationChain>)

  class GreetPage {
    var actor: Actor
    /** The options of each `AuthClient.create`, in order. */
    var clients: seq<ClientOptions>
    /** The payloads written to the console with `JSON.stringify`, in order. */
    var logged: seq<HandoffPayload.Payload>

    constructor ()
      ensures actor == GreetActor && clients == [] && logged == []
    {
      actor := GreetActor;
      clients := [];
      logged := [];
    }

    method SetupAuth(params: QueryParams.Params, lib: Library, run: GreetRun) returns (c: Completion)
      modifies this
      // a session key makes `options.identity` a session identity; `fromDer` or the missing
      // binding throws before any client exists
      ensures var key := FrontendAuth.ParamOrEmpty(params, "sessionkey");
        key != "" && (lib.decodeSessionKey(key).None? || !run.sessionIdentityInScope) ==>
        c == Rejected && actor == old(actor) && clients == old(clients) && logged == old(logged)
      // otherwise exactly one client is created, with the session key or without
      ensures var key := FrontendAuth.ParamOrEmpty(params, "sessionkey");
        key == "" ==> clients == old(clients) + [ClientOptions(None)]
      ensures var key := FrontendAuth.ParamOrEmpty(params, "sessionkey");
        key != "" && lib.decodeSessionKey(key).Some? && run.sessionIdentityInScope ==>
        clients == old(clients) + [ClientOptions(Some(lib.decodeSessionKey(key).value))]
      // not authenticated: only an error is logged
      ensures old(clients) < clients && !run.authenticated ==> c == Resolved && actor == old(actor) && logged == old(logged)
      // authenticated: the actor uses the identity of the options, and the payload needs its `_delegation`
      ensures old(clients) < clients && run.authenticated ==>
        && actor == AgentActor(clients[|clients| - 1].identity)
        && (clients[|clients| - 1].identity.None? || run.delegation.None? ==> c == Rejected && logged == old(logged))
        && (clients[|clients| - 1].identity.Some? && run.delegation.Some? ==>
              && c == Resolved
              && logged == old(logged) + [HandoffPayload.BuildPayload(run.delegation.value, clients[|clients| - 1].identity.value)])
    {
      var sessionKey := FrontendAuth.ParamOrEmpty(params, "sessionkey");
      var options := ClientOptions(None);
      var identity: FrontendIndex.SessionIdentity? := null;
      if sessionKey != "" {
        var publicKey := lib.decodeSessionKey(sessionKey);
        if publicKey.None? || !run.sessionIdentityInScope {
          return Rejected;
        }
        identity := new FrontendIndex.SessionIdentity(publicKey.value);
        options := ClientOptions(Some(identity.publicKey));
      }
      clients := clients + [options];
      if !run.authenticated {
        return Resolved;
      }
      actor := AgentActor(options.identity);
      if identity == null || run.delegation.None? {
        // `options.identity._delegation.delegations` reads a property of `undefined`
        return Rejected;
      }
      logged := logged + [HandoffPayload.BuildPayload(run.delegation.value, identity.GetPublicKey())];
      return Resolved;
    }
  }

  /**
   * Without a session key every authenticated run rejects: `options.identity` is
   * `undefined`, so no payload is ever logged.
   */
  method NoKeyNoPayload(page: GreetPage, params: QueryParams.Params, lib: Library, answers: GreetRun)
    requires FrontendAuth.ParamOrEmpty(params, "sessionkey") == ""
    modifies page
    ensures page.logged == old(page.logged)
    ensures page.clients == old(page.clients) + [ClientOptions(None)]
    ensures answers.authenticated ==> page.actor == AgentActor(None)
  {
    var c := page.SetupAuth(params, lib, answers);
  }
}
