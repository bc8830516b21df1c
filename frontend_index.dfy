/**
 * src/frontend/src/index.js: the `SessionIdentity` class, an identity made of the session
 * key from the URL, and `setupAuth`, which logs in with it and logs the handoff payload.
 */
module FrontendIndex {
  import opened Wrappers
  import opened Numerals
  import opened Delegations
  import QueryParams
  import FrontendAuth
  import HandoffPayload

  /** An identity made of a public key alone; it cannot sign. */
  class SessionIdentity {
    /** The Ed25519 public key, by its DER encoding. */
    const publicKey: seq<Byte>

    constructor (publicKey: seq<Byte>)
      ensures this.publicKey == publicKey
    {
      this.publicKey := publicKey;
    }

    /** `getPublicKey()`. */
    function GetPublicKey(): seq<Byte> {
      publicKey
    }

    /** `sign(blob)`: every call rejects with `Error("Not implemented")`, whatever the blob. */
    method Sign(blob: seq<Byte>) returns (r: Result<seq<Byte>, string>)
      ensures r.Err? && r.error == "Not implemented"
    {
      return Err("Not implemented");
    }
  }

  /** `getPublicKey` of a new identity gives back the key it was made with. */
  method KeyOfNewIdentity(key: seq<Byte>) returns (r: seq<Byte>)
    ensures r == key
  {
    var identity := new SessionIdentity(key);
    r := identity.GetPublicKey();
  }

  /** The backend actor: the default one, or one whose agent signs as the session identity. */
  datatype Actor = BackendActor | SessionActor(publicKey: seq<Byte>)

  /**
   * What the libraries answer during one `setupAuth`: whether `login` ever calls `onSuccess`,
   * what `isAuthenticated()` then says, and the `_delegation` property of `options.identity`,
   * which no code of the file sets on a `SessionIdentity` (`None`: it is `undefined`).
   */
  datatype LoginRun = LoginRun(loginCompletes: bool, authenticated: bool, delegation: Option<DelegationChain>)

  /** The module state of the page and what `setupAuth` leaves behind. */
  class IndexPage {
    var actor: Actor
    /** The identity key of each `AuthClient.create(options)`, in order. */
    var clients: seq<seq<Byte>>
    /** The payloads written to the console with `JSON.stringify`, in order. */
    var logged: seq<HandoffPayload.Payload>

    constructor ()
      ensures actor == BackendActor && clients == [] && logged == []
    {
      actor := BackendActor;
      clients := [];
      logged := [];
    }

    /** `setupAuth` with the page's query parameters and one run's answers. */
    method SetupAuth(params: QueryParams.Params, lib: Library, run: LoginRun) returns (c: Completion)
      modifies this
      // no session key: a log line, no client and no payload
      ensures FrontendAuth.ParamOrEmpty(params, "sessionkey") == "" ==>
        c == Resolved && actor == old(actor) && clients == old(clients) && logged == old(logged)
      // `fromDer` throws on the decoded bytes before the client is created
      ensures var key := FrontendAuth.ParamOrEmpty(params, "sessionkey");
        key != "" && lib.decodeSessionKey(key).None? ==>
        c == Rejected && actor == old(actor) && clients == old(clients) && logged == old(logged)
      // otherwise one client is created, on the session identity
      ensures var key := FrontendAuth.ParamOrEmpty(params, "sessionkey");
        key != "" && lib.decodeSessionKey(key).Some? ==> clients == old(clients) + [lib.decodeSessionKey(key).value]
      ensures var key := FrontendAuth.ParamOrEmpty(params, "sessionkey");
        key != "" && lib.decodeSessionKey(key).Some? && (!run.loginCompletes || !run.authenticated) ==>
        c == (if run.loginCompletes then Resolved else Pending) && actor == old(actor) && logged == old(logged)
      // authenticated: the actor signs as the session key, then the payload is logged, unless
      // reading `_delegation.delegations` of the identity throws a TypeError
      ensures var key := FrontendAuth.ParamOrEmpty(params, "sessionkey");
        key != "" && lib.decodeSessionKey(key).Some? && run.loginCompletes && run.authenticated ==>
        && actor == SessionActor(lib.decodeSessionKey(key).value)
        && (run.delegation.None? ==> c == Rejected && logged == old(logged))
        && (run.delegation.Some? ==>
              && c == Resolved
              && logged == old(logged) + [HandoffPayload.BuildPayload(run.delegation.value, lib.decodeSessionKey(key).value)]
              && HandoffPayload.ReadPayload(logged[|logged| - 1]) == Some((run.delegation.value.delegations, lib.decodeSessionKey(key).value)))
    {
      var sessionKey := FrontendAuth.ParamOrEmpty(params, "sessionkey");
      if sessionKey == "" {
        return Resolved;
      }
      var publicKey := lib.decodeSessionKey(sessionKey);
      if publicKey.None? {
        return Rejected;
      }
      var identity := new SessionIdentity(publicKey.value);
      clients := clients + [identity.publicKey];
      if !run.loginCompletes {
        // the promise around `login` never resolves
        return Pending;
      }
      if !run.authenticated {
        return Resolved;
      }
      actor := SessionActor(identity.publicKey);
      if run.delegation.None? {
        return Rejected;
      }
      var payload := HandoffPayload.BuildPayload(run.delegation.value, identity.GetPublicKey());
      HandoffPayload.PayloadRoundTrip(run.delegation.value, identity.GetPublicKey());
      logged := logged + [payload];
      return Resolved;
    }
  }

  /**
   * On a `SessionIdentity` nothing sets `_delegation`: an authenticated run with a usable
   * session key rejects before any payload is logged.
   */
  method AuthenticatedRunLogsNothing(page: IndexPage, params: QueryParams.Params, lib: Library)
    requires FrontendAuth.ParamOrEmpty(params, "sessionkey") != ""
    requires lib.decodeSessionKey(FrontendAuth.ParamOrEmpty(params, "sessionkey")).Some?
    modifies page
    ensures page.logged == old(page.logged)
    ensures page.actor == SessionActor(lib.decodeSessionKey(FrontendAuth.ParamOrEmpty(params, "sessionkey")).value)
  {
    var c := page.SetupAuth(params, lib, LoginRun(true, true, None));
    assert c == Rejected;
  }
}
