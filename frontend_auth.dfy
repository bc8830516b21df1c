/**
 * The module state of src/frontend/src/auth.js and its three handlers: `setupAuth`, which
 * logs in with a middle key and encodes a delegation for the session key given in the URL,
 * `callWhoami`, which redirects the delegation back to the caller, and `handleLogout`.
 */
module FrontendAuth {
  import opened Wrappers
  import opened Numerals
  import opened Delegations
  import QueryParams
  import UriComponent
  import Redirect
  import WsQueue

  /** The backend actor: the anonymous default, or one built on a logged-in identity's agent. */
  datatype Actor = AnonymousActor | IdentityActor(principal: string)

  /** An `AuthClient` created with the middle key identity. */
  datatype AuthClient = AuthClient(middleKey: seq<Byte>, loggedOut: bool)

  /**
   * What the libraries and the canister answer during one `setupAuth`: the generated middle
   * key, whether `login` ever calls `onSuccess`, what `isAuthenticated()` then says, the client's
   * identity, and whether both health checks resolve.
   */
  datatype LoginRun = LoginRun(middleKey: seq<Byte>, loginCompletes: bool, authenticated: bool, identity: Identity, healthChecksResolve: bool)

  /** The DOM the handlers write: the `getData` and `logging` texts and the two buttons' `display`. */
  datatype Page = Page(getDataText: string, loggingText: string, loginDisplay: string, logoutDisplay: string)

  /** `url.searchParams.get(name) ?? ''`. */
  function ParamOrEmpty(params: QueryParams.Params, name: string): (v: string)
    ensures v == "" <==> QueryParams.Get(params, name) == None || QueryParams.Get(params, name) == Some("")
  {
    match QueryParams.Get(params, name)
    case None => ""
    case Some(v) => v
  }

  /** The text announced on the socket after a login. */
  function LoginAnnouncement(principal: string): string {
    "User " + principal + " has logged in"
  }

  class AuthPage {
    var actor: Actor
    var authClient: Option<AuthClient>
    /** `result`: the URI-encoded delegation chain, once there is one. */
    var result: Option<string>
    /** The address assigned to `window.location.href`, once there is one. */
    var location: Option<string>
    var page: Page
    const socket: WsQueue.OutboundSocket

    constructor (socket: WsQueue.OutboundSocket, page: Page)
      ensures this.socket == socket && this.page == page
      ensures actor == AnonymousActor && authClient == None && result == None && location == None
    {
      this.socket := socket;
      this.page := page;
      actor := AnonymousActor;
      authClient := None;
      result := None;
      location := None;
    }

    /** `setupAuth` with the page's query parameters, the current time and one run's answers. */
    method SetupAuth(params: QueryParams.Params, lib: Library, run: LoginRun, nowMs: nat) returns (c: Completion)
      requires socket.QueuedWrapped()
      modifies this, socket
      ensures socket.QueuedWrapped() && (old(socket.Valid()) ==> socket.Valid())
      ensures page == old(page) && location == old(location)
      ensures socket.isConnected == old(socket.isConnected)
      // no session key: only a log line
      ensures ParamOrEmpty(params, "sessionkey") == "" ==>
        c == Resolved && actor == old(actor) && authClient == old(authClient) && result == old(result) &&
        socket.sent == old(socket.sent) && socket.messageQueue == old(socket.messageQueue)
      // a key `fromDer` refuses: the handler rejects before creating a client
      ensures var key := ParamOrEmpty(params, "sessionkey");
        key != "" && lib.decodeSessionKey(key).None? ==>
        c == Rejected && actor == old(actor) && authClient == old(authClient) && result == old(result) &&
        socket.sent == old(socket.sent) && socket.messageQueue == old(socket.messageQueue)
      // with a usable key the client is replaced by one on the middle key
      ensures var key := ParamOrEmpty(params, "sessionkey");
        key != "" && lib.decodeSessionKey(key).Some? ==> authClient == Some(AuthClient(run.middleKey, false))
      // the login never finishes, or is not authenticated: nothing else changes
      ensures var key := ParamOrEmpty(params, "sessionkey");
        key != "" && lib.decodeSessionKey(key).Some? && (!run.loginCompletes || !run.authenticated) ==>
        c == (if run.loginCompletes then Resolved else Pending) &&
        actor == old(actor) && result == old(result) &&
        socket.sent == old(socket.sent) && socket.messageQueue == old(socket.messageQueue)
      // authenticated: new actor, the announcement is sent, then the delegation is encoded
      ensures var key := ParamOrEmpty(params, "sessionkey");
        key != "" && lib.decodeSessionKey(key).Some? && run.loginCompletes && run.authenticated ==>
        && actor == IdentityActor(run.identity.principal)
        && (old(socket.isConnected) ==>
              socket.sent == old(socket.sent) + [WsQueue.Wrapped(WsQueue.Text(LoginAnnouncement(run.identity.principal)))] &&
              socket.messageQueue == old(socket.messageQueue))
        && (!old(socket.isConnected) ==>
              socket.messageQueue == old(socket.messageQueue) + [WsQueue.Wrapped(WsQueue.Text(LoginAnnouncement(run.identity.principal)))] &&
              socket.sent == old(socket.sent))
        && var chain := if run.healthChecksResolve && run.identity.delegation.Some?
                        then lib.createChain(run.middleKey, lib.decodeSessionKey(key).value, HandoffExpiration(nowMs), run.identity.delegation.value)
                        else None;
           (chain.Some? ==> c == Resolved && result == Some(UriComponent.Encode(lib.chainJson(chain.value)))) &&
           (chain.None? ==> c == Rejected && result == old(result))
    {
      var sessionKey := ParamOrEmpty(params, "sessionkey");
      if sessionKey == "" {
        return Resolved;
      }
      var appPublicKey := lib.decodeSessionKey(sessionKey);
      if appPublicKey.None? {
        return Rejected;
      }
      authClient := Some(AuthClient(run.middleKey, false));
      if !run.loginCompletes {
        // the promise around `login` never resolves
        return Pending;
      }
      if !run.authenticated {
        return Resolved;
      }
      actor := IdentityActor(run.identity.principal);
      socket.SendMessage(WsQueue.Text(LoginAnnouncement(run.identity.principal)));
      if !run.healthChecksResolve {
        return Rejected;
      }
      // `testDB_operations` catches its own failures; `appPublicKey` is never null here
      if run.identity.delegation.None? {
        // `getDelegation` is not a function of a non-delegation identity
        return Rejected;
      }
      var chain := lib.createChain(run.middleKey, appPublicKey.value, HandoffExpiration(nowMs), run.identity.delegation.value);
      if chain.None? {
        return Rejected;
      }
      var delegationString := lib.chainJson(chain.value);
      result := Some(UriComponent.Encode(delegationString));
      return Resolved;
    }

    /** `handleLogout`: nothing without a client; otherwise log out and reset the page. */
    method HandleLogout(logoutResolves: bool)
      modifies this
      ensures actor == old(actor) && result == old(result) && location == old(location)
      ensures old(authClient).None? || !logoutResolves ==> authClient == old(authClient) && page == old(page)
      ensures old(authClient).Some? && logoutResolves ==>
        && authClient == Some(old(authClient).value.(loggedOut := true))
        && page == old(page).(getDataText := "", loginDisplay := "block", logoutDisplay := "none")
    {
      if authClient.None? {
        return;
      }
      if !logoutResolves {
        // the error is caught and logged
        return;
      }
      authClient := Some(authClient.value.(loggedOut := true));
      page := page.(getDataText := "", loginDisplay := "block", logoutDisplay := "none");
    }

    /**
     * `callWhoami` with the canister's answer (`None` where the call rejects, which is
     * caught): show the principal, then redirect when `result` is a non-empty string.
     */
    method CallWhoami(whoami: Option<string>, search: QueryParams.Params)
      modifies this
      ensures actor == old(actor) && authClient == old(authClient) && result == old(result)
      ensures whoami.None? ==> page == old(page) && location == old(location)
      ensures whoami.Some? ==> page == old(page).(loggingText := whoami.value)
      ensures whoami.Some? && result.Some? && result.value != "" ==>
        location == Some(Redirect.RedirectUrl(QueryParams.Get(search, "scheme"), QueryParams.Get(search, "host"), result.value))
      ensures whoami.Some? && (result.None? || result.value == "") ==> location == old(location)
    {
      if whoami.None? {
        return;
      }
      page := page.(loggingText := whoami.value);
      var redirectScheme := QueryParams.Get(search, "scheme");
      var redirectHost := QueryParams.Get(search, "host");
      if result.Some? && result.value != "" {
        location := Some(Redirect.RedirectUrl(redirectScheme, redirectHost, result.value));
      }
    }
  }

  /** A run of `setupAuth` that gets as far as `DelegationChain.create` and sees it resolve. */
  predicate ChainCreated(params: QueryParams.Params, lib: Library, run: LoginRun, nowMs: nat) {
    var key := ParamOrEmpty(params, "sessionkey");
    && key != "" && lib.decodeSessionKey(key).Some?
    && run.loginCompletes && run.authenticated && run.healthChecksResolve && run.identity.delegation.Some?
    && lib.createChain(run.middleKey, lib.decodeSessionKey(key).value, HandoffExpiration(nowMs), run.identity.delegation.value).Some?
  }

  /** The JSON text of the chain such a run creates. */
  function ChainText(params: QueryParams.Params, lib: Library, run: LoginRun, nowMs: nat): string
    requires ChainCreated(params, lib, run, nowMs)
  {
    var key := ParamOrEmpty(params, "sessionkey");
    lib.chainJson(lib.createChain(run.middleKey, lib.decodeSessionKey(key).value, HandoffExpiration(nowMs), run.identity.delegation.value).value)
  }

  /**
   * The whole handoff: after such a `setupAuth` and a `callWhoami`, the caller named by
   * `scheme` and `host` receives a `del` parameter that decodes to the chain's JSON.
   */
  method Handoff(authPage: AuthPage, params: QueryParams.Params, lib: Library, run: LoginRun, nowMs: nat, principalId: string)
    requires authPage.socket.QueuedWrapped()
    requires ChainCreated(params, lib, run, nowMs) && ChainText(params, lib, run, nowMs) != ""
    requires ':' !in Redirect.Render(QueryParams.Get(params, "scheme")) && '?' !in Redirect.Render(QueryParams.Get(params, "host"))
    modifies authPage, authPage.socket
    ensures authPage.location.Some?
    ensures var target := Redirect.ParseRedirect(authPage.location.value);
      && target.Some?
      && target.value.scheme == Redirect.Render(QueryParams.Get(params, "scheme"))
      && target.value.host == Redirect.Render(QueryParams.Get(params, "host"))
      && UriComponent.Decode(target.value.del) == Some(ChainText(params, lib, run, nowMs))
  {
    var c := authPage.SetupAuth(params, lib, run, nowMs);
    var json := ChainText(params, lib, run, nowMs);
    assert authPage.result == Some(UriComponent.Encode(json));
    authPage.CallWhoami(Some(principalId), params);
    Redirect.RedirectRoundTrip(QueryParams.Get(params, "scheme"), QueryParams.Get(params, "host"), json);
  }
}
