/**
 * src/cannister_frontend/src/App.js: the `App` class, which logs in to Internet Identity
 * with a freshly generated session key and shows the delegation and agent data it gets.
 */
module CanisterApp {
  import opened Wrappers
  import opened Numerals
  import opened Hex

  /** The Internet Identity address the login goes to, before the session key. */
  const IDENTITY_PROVIDER_PREFIX: string := "https://identity.ic0.app?sessionkey="

  /** The replica the agent of the login callback talks to. */
  const AGENT_HOST: string := "http://127.0.0.1:4943"

  /** `delegationData`: `{ publicKey: principal, sessionKey, status: true, whoami }`. */
  datatype DelegationData = DelegationData(publicKey: string, sessionKey: string, status: bool, whoami: string)

  /** An `HttpAgent`, by the principal it signs as and the host it talks to. */
  datatype Agent = HttpAgent(principal: string, host: string)

  /** `agentData`: `{ identity: principal, agent }`. */
  datatype AgentData = AgentData(identity: string, agent: Agent)

  /** What `appTemplate` shows: the two buttons' `disabled` flags and the two data blocks. */
  datatype View = View(loginDisabled: bool, appDisabled: bool, delegationShown: Option<DelegationData>, agentShown: Option<AgentData>)

  /** `appTemplate(..., isAuthenticated, agentData, delegationData)`. */
  function AppTemplate(isAuthenticated: bool, agentData: Option<AgentData>, delegationData: Option<DelegationData>): View {
    View(isAuthenticated, !isAuthenticated, delegationData, agentData)
  }

  /** The address `login` is sent to for a session key given by its DER encoding. */
  function ProviderUrl(publicKeyDer: seq<Byte>): (url: string)
    ensures |url| == |IDENTITY_PROVIDER_PREFIX| + 2 * |publicKeyDer|
    ensures url[..|IDENTITY_PROVIDER_PREFIX|] == IDENTITY_PROVIDER_PREFIX
    ensures HexToBytes(url[|IDENTITY_PROVIDER_PREFIX|..]) == Some(publicKeyDer)
  {
    var url := IDENTITY_PROVIDER_PREFIX + BytesToHex(publicKeyDer);
    BytesToHexShape(publicKeyDer);
    HexRoundTrip(publicKeyDer);
    assert url[|IDENTITY_PROVIDER_PREFIX|..] == BytesToHex(publicKeyDer);
    url
  }

  /** The module-level `delegationData` and `agentData`, shared by every `App`. */
  class AppData {
    var delegationData: Option<DelegationData>
    var agentData: Option<AgentData>

    constructor ()
      ensures delegationData == None && agentData == None
    {
      delegationData := None;
      agentData := None;
    }
  }

  class App {
    var isAuthenticated: bool
    const data: AppData
    /** What the last `render()` put in `#root`. */
    var view: View

    /** `new App()`: not authenticated, and rendered once. */
    constructor (data: AppData)
      ensures this.data == data && !isAuthenticated
      ensures view == AppTemplate(false, data.agentData, data.delegationData)
      ensures !view.loginDisabled && view.appDisabled
    {
      this.data := data;
      isAuthenticated := false;
      view := AppTemplate(false, data.agentData, data.delegationData);
    }

    /** `render()`: the login button is disabled iff authenticated, the app button iff not. */
    method Render()
      modifies this
      ensures isAuthenticated == old(isAuthenticated)
      ensures view.loginDisabled <==> isAuthenticated
      ensures view.appDisabled <==> !isAuthenticated
      ensures view.delegationShown == data.delegationData && view.agentShown == data.agentData
    {
      view := AppTemplate(isAuthenticated, data.agentData, data.delegationData);
    }

    /**
     * `loginWithInternetIdentity()` up to the `login` call, with the DER encoding of the
     * generated key; `createResolves` is false where `AuthClient.create` rejects (the error
     * is caught). It gives the provider address and the session key the callback captures.
     * Nothing of the page changes: that is left to the callback.
     */
    method LoginWithInternetIdentity(publicKeyDer: seq<Byte>, createResolves: bool) returns (provider: Option<string>, sessionKey: string)
      ensures provider.Some? <==> createResolves
      ensures sessionKey == BytesToHex(publicKeyDer)
      ensures createResolves ==> provider.value == IDENTITY_PROVIDER_PREFIX + sessionKey
    {
      sessionKey := BytesToHex(publicKeyDer);
      if !createResolves {
        return None, sessionKey;
      }
      provider := Some(ProviderUrl(publicKeyDer));
    }

    /**
     * The `onSuccess` callback: authenticated at once, then, once `whoami()` answers
     * (`None`: it rejects and the callback stops), the two data objects and a new render.
     */
    method OnLoginSuccess(sessionKey: string, principal: string, whoami: Option<string>)
      modifies this, data
      ensures isAuthenticated
      ensures whoami.None? ==> data.delegationData == old(data.delegationData) && data.agentData == old(data.agentData) && view == old(view)
      ensures whoami.Some? ==>
        && data.delegationData == Some(DelegationData(principal, sessionKey, true, whoami.value))
        && data.agentData == Some(AgentData(principal, HttpAgent(principal, AGENT_HOST)))
        && view == AppTemplate(true, data.agentData, data.delegationData)
    {
      isAuthenticated := true;
      if whoami.None? {
        return;
      }
      data.delegationData := Some(DelegationData(principal, sessionKey, true, whoami.value));
      data.agentData := Some(AgentData(principal, HttpAgent(principal, AGENT_HOST)));
      Render();
    }

    /** `takeMeToApp()`: the alert is shown iff there is delegation or agent data. */
    method TakeMeToApp() returns (alerted: bool)
      ensures alerted <==> data.delegationData.Some? || data.agentData.Some?
    {
      alerted := data.delegationData.Some? || data.agentData.Some?;
    }
  }

  /**
   * A login that succeeds: the page shows the principal with the hex of the generated key,
   * the app button is enabled, the login button disabled, and the app button alerts.
   */
  method SuccessfulLogin(app: App, publicKeyDer: seq<Byte>, principal: string, whoami: string) returns (alerted: bool)
    modifies app, app.data
    ensures app.isAuthenticated && !app.view.appDisabled && app.view.loginDisabled
    ensures app.view.delegationShown == Some(DelegationData(principal, BytesToHex(publicKeyDer), true, whoami))
    ensures HexToBytes(app.view.delegationShown.value.sessionKey) == Some(publicKeyDer)
    ensures alerted
  {
    var provider, sessionKey := app.LoginWithInternetIdentity(publicKeyDer, true);
    app.OnLoginSuccess(sessionKey, principal, Some(whoami));
    HexRoundTrip(publicKeyDer);
    alerted := app.TakeMeToApp();
  }
}
