/**
 * The auth hook of src/dashboard/use-auth-client.jsx: the choice of identity provider,
 * the client created at mount, and `updateClient`, which either hands a delegation back
 * to the caller named in the URL or records the dashboard's own login.
 */
module DashboardAuth {
  import opened Wrappers
  import opened Numerals
  import opened Delegations
  import QueryParams
  import UriComponent
  import Redirect

  /** ASCII lower case: what the `i` flag folds without the `u` flag, for the letters used here. */
  function LowerAscii(c: char): char {
    if 'A' <= c <= 'Z' then (c as int + 32) as char else c
  }

  /** `word` (lower case) occurs at position `i` of `s`, ignoring case. */
  predicate WordAt(s: string, i: nat, word: string) {
    i + |word| <= |s| && forall k :: 0 <= k < |word| ==> LowerAscii(s[i + k]) == word[k]
  }

  /** The characters `.` does not match without the `s` flag. */
  predicate IsLineTerminator(c: char) {
    c == '\n' || c == '\r' || c == '\U{2028}' || c == '\U{2029}'
  }

  /** The lookahead `(?!chrome|android)` fails at `i`. */
  predicate Blocked(s: string, i: nat) {
    WordAt(s, i, "chrome") || WordAt(s, i, "android")
  }

  /**
   * `((?!chrome|android).)*safari` matched from position `i`: either `safari` starts here, or
   * `.` takes a character at which the lookahead holds and the match goes on.
   */
  predicate SafariMatchFrom(s: string, i: nat)
    requires i <= |s|
    decreases |s| - i
  {
    WordAt(s, i, "safari") || (i < |s| && !IsLineTerminator(s[i]) && !Blocked(s, i) && SafariMatchFrom(s, i + 1))
  }

  /** `/^((?!chrome|android).)*safari/i.test(userAgent)`. */
  predicate IsSafari(userAgent: string) {
    SafariMatchFrom(userAgent, 0)
  }

  /** No `chrome`, `android` or line break starts before `i`. */
  predicate Clear(s: string, i: nat)
    requires i <= |s|
  {
    forall j :: 0 <= j < i ==> !IsLineTerminator(s[j]) && !Blocked(s, j)
  }

  lemma {:induction false} SafariMatchFromMeaning(s: string, i: nat)
    requires i <= |s| && Clear(s, i)
    ensures SafariMatchFrom(s, i) <==> exists k :: i <= k <= |s| && WordAt(s, k, "safari") && Clear(s, k)
    decreases |s| - i
  {
    if WordAt(s, i, "safari") {
    } else if i == |s| {
    } else if !IsLineTerminator(s[i]) && !Blocked(s, i) {
      assert Clear(s, i + 1);
      SafariMatchFromMeaning(s, i + 1);
      forall k | i <= k <= |s| && WordAt(s, k, "safari") && Clear(s, k)
        ensures i + 1 <= k
      {
      }
    } else {
      forall k | i <= k <= |s| && WordAt(s, k, "safari")
        ensures !Clear(s, k)
      {
        assert IsLineTerminator(s[i]) || Blocked(s, i);
      }
    }
  }

  /**
   * The regular expression recognises a user agent in which `safari` occurs, ignoring
   * case, with no `chrome`, no `android` and no line break starting before it.
   */
  lemma IsSafariMeaning(userAgent: string)
    ensures IsSafari(userAgent) <==> exists k :: 0 <= k <= |userAgent| && WordAt(userAgent, k, "safari") && Clear(userAgent, k)
  {
    SafariMatchFromMeaning(userAgent, 0);
  }

  /** A Chrome user agent names Safari too, but after `Chrome`. */
  lemma ChromeIsNotSafari()
    ensures !IsSafari("Chrome Safari")
  {
    var s := "Chrome Safari";
    assert !WordAt(s, 0, "safari") by { assert LowerAscii(s[0 + 0]) != "safari"[0]; }
    assert WordAt(s, 0, "chrome");
  }

  lemma SafariIsSafari()
    ensures IsSafari("Version Safari")
  {
    var s := "Version Safari";
    assert WordAt(s, 8, "safari");
    assert Clear(s, 8) by {
      forall j | 0 <= j < 8 ensures !IsLineTerminator(s[j]) && !Blocked(s, j) {
        assert !WordAt(s, j, "chrome") by { assert LowerAscii(s[j + 0]) != "chrome"[0]; }
        assert !WordAt(s, j, "android") by { assert LowerAscii(s[j + 0]) != "android"[0]; }
      }
    }
    IsSafariMeaning(s);
  }

  /** How a template literal renders a value that is a string or `undefined`. */
  function RenderEnv(v: Option<string>): string {
    match v
    case None => "undefined"
    case Some(s) => s
  }

  /**
   * `getIdentityProvider()`: the local replica's Internet Identity, through the port for
   * Safari and a `localhost` subdomain otherwise; `None` (`undefined`) on the main network
   * or without a `window`.
   */
  function GetIdentityProvider(hasWindow: bool, dfxNetwork: Option<string>, userAgent: string, internetIdentityId: Option<string>): (r: Option<string>)
    ensures r.Some? <==> hasWindow && dfxNetwork != Some("ic")
    ensures r.Some? ==>
      ((exists k :: 0 <= k <= |userAgent| && WordAt(userAgent, k, "safari") && Clear(userAgent, k))
        <==> r.value == "http://localhost:4943/?canisterId=" + RenderEnv(internetIdentityId))
    ensures r.Some? && !(exists k :: 0 <= k <= |userAgent| && WordAt(userAgent, k, "safari") && Clear(userAgent, k)) ==>
      r.value == "http://" + RenderEnv(internetIdentityId) + ".localhost:4943"
  {
    IsSafariMeaning(userAgent);
    if !hasWindow then None
    else
      var isLocal := dfxNetwork != Some("ic");
      var isSafari := IsSafari(userAgent);
      if isLocal && isSafari then Some("http://localhost:4943/?canisterId=" + RenderEnv(internetIdentityId))
      else if isLocal then
        // the subdomain address is twelve characters shorter than the Safari one
        assert |"http://" + RenderEnv(internetIdentityId) + ".localhost:4943"| + 12 == |"http://localhost:4943/?canisterId=" + RenderEnv(internetIdentityId)|;
        Some("http://" + RenderEnv(internetIdentityId) + ".localhost:4943")
      else None
  }

  /** An `AuthClient`: created with the middle key identity, or (`None`) with `createOptions`. */
  datatype Client = Client(identityKey: Option<seq<Byte>>, loggedOut: bool)

  /** What a client answers: `isAuthenticated()` and `getIdentity()`. */
  datatype ClientAnswers = ClientAnswers(authenticated: bool, identity: Identity)

  /** `searchParams.get('sessionkey')` is a non-empty string. */
  predicate HasSessionKey(params: QueryParams.Params) {
    QueryParams.Get(params, "sessionkey").Some? && QueryParams.Get(params, "sessionkey").value != ""
  }

  /** The search parameters once the handoff has deleted its three. */
  function WithoutHandoffParams(params: QueryParams.Params): (r: QueryParams.Params)
    ensures QueryParams.Get(r, "scheme") == None && QueryParams.Get(r, "host") == None && QueryParams.Get(r, "sessionkey") == None
    ensures forall name :: name != "scheme" && name != "host" && name != "sessionkey" ==> QueryParams.Get(r, name) == QueryParams.Get(params, name)
  {
    var withoutScheme := QueryParams.Delete(params, "scheme");
    var withoutHost := QueryParams.Delete(withoutScheme, "host");
    var r := QueryParams.Delete(withoutHost, "sessionkey");
    forall name | name != "scheme" && name != "host" && name != "sessionkey"
      ensures QueryParams.Get(r, name) == QueryParams.Get(params, name)
    {
      QueryParams.GetOtherAfterDelete(params, "scheme", name);
      QueryParams.GetOtherAfterDelete(withoutScheme, "host", name);
      QueryParams.GetOtherAfterDelete(withoutHost, "sessionkey", name);
    }
    QueryParams.GetOtherAfterDelete(withoutScheme, "host", "scheme");
    QueryParams.GetOtherAfterDelete(withoutHost, "sessionkey", "scheme");
    QueryParams.GetOtherAfterDelete(withoutHost, "sessionkey", "host");
    r
  }

  /**
   * The chain the handoff creates: only for a decoded app key, a `DelegationIdentity`
   * and a middle key, and only when `DelegationChain.create` resolves.
   */
  function HandoffChain(appKey: Option<seq<Byte>>, key: Option<seq<Byte>>, answers: ClientAnswers, lib: Library, nowMs: nat): (chain: Option<DelegationChain>)
    ensures chain.Some? ==> appKey.Some? && key.Some? && answers.identity.delegation.Some?
    ensures chain.Some? ==> chain == lib.createChain(key.value, appKey.value, nowMs + 5 * MS_PER_DAY, answers.identity.delegation.value)
    ensures appKey.Some? && key.Some? && answers.identity.delegation.Some? ==>
      chain == lib.createChain(key.value, appKey.value, nowMs + 5 * MS_PER_DAY, answers.identity.delegation.value)
  {
    if appKey.Some? && answers.identity.delegation.Some? && key.Some?
    then lib.createChain(key.value, appKey.value, HandoffExpiration(nowMs), answers.identity.delegation.value)
    else None
  }

  /** The state of one `useAuthClient` hook, with every setter applied. */
  class AuthHook {
    var isAuthenticated: bool
    var authClient: Option<Client>
    var identity: Option<Identity>
    var principal: Option<string>
    /** The principal that `whoamiActor` calls as. */
    var whoamiActor: Option<string>
    var searchParams: QueryParams.Params
    var middleKey: Option<seq<Byte>>
    /** The address assigned to `window.location.href`, once there is one. */
    var location: Option<string>
    /** Whether the handoff has started `logout()`, which runs on after `updateClient` returns. */
    var logoutStarted: bool

    constructor (searchParams: QueryParams.Params)
      ensures this.searchParams == searchParams
      ensures !isAuthenticated && authClient == None && identity == None && principal == None && whoamiActor == None
      ensures middleKey == None && location == None && !logoutStarted
    {
      this.searchParams := searchParams;
      isAuthenticated := false;
      authClient := None;
      identity := None;
      principal := None;
      whoamiActor := None;
      middleKey := None;
      location := None;
      logoutStarted := false;
    }

    /**
     * `updateClient(client, key)`: with a session key, build the delegation for it and
     * redirect to the caller; without one, record the dashboard's login state.
     */
    method UpdateClient(client: Client, key: Option<seq<Byte>>, answers: ClientAnswers, lib: Library, nowMs: nat) returns (c: Completion)
      modifies this
      ensures middleKey == key && authClient == Some(client)
      // no session key: the dashboard branch, and only there are these four set
      ensures !HasSessionKey(old(searchParams)) ==>
        && c == Resolved
        && isAuthenticated == answers.authenticated && identity == Some(answers.identity)
        && principal == Some(answers.identity.principal) && whoamiActor == Some(answers.identity.principal)
        && searchParams == old(searchParams) && location == old(location) && logoutStarted == old(logoutStarted)
      ensures HasSessionKey(old(searchParams)) ==>
        && isAuthenticated == old(isAuthenticated) && identity == old(identity)
        && principal == old(principal) && whoamiActor == old(whoamiActor)
        && HandedOff(old(searchParams), old(location), old(logoutStarted), key, answers, lib, nowMs, c, searchParams, location, logoutStarted)
    {
      middleKey := key;
      authClient := Some(client);
      var sessionKey := QueryParams.Get(searchParams, "sessionkey");
      if sessionKey.Some? && sessionKey.value != "" {
        c := HandOff(key, answers, lib, nowMs);
      } else {
        isAuthenticated := answers.authenticated;
        identity := Some(answers.identity);
        principal := Some(answers.identity.principal);
        whoamiActor := Some(answers.identity.principal);
        c := Resolved;
      }
    }

    /**
     * What the session-key branch of `updateClient` leaves: when `DelegationChain.create`
     * for the app key, the identity's chain and the expiry resolves, the handoff parameters
     * are gone, the browser is sent to the dashboard's redirect and `logout` has started;
     * otherwise nothing of these has changed.
     */
    ghost predicate HandedOff(params: QueryParams.Params, location0: Option<string>, logout0: bool,
                              key: Option<seq<Byte>>, answers: ClientAnswers, lib: Library, nowMs: nat, c: Completion,
                              params1: QueryParams.Params, location1: Option<string>, logout1: bool)
      requires HasSessionKey(params)
    {
      var appKey := lib.decodeSessionKey(QueryParams.Get(params, "sessionkey").value);
      var chain := HandoffChain(appKey, key, answers, lib, nowMs);
      && (chain.Some? ==>
            && c == Resolved
            && params1 == WithoutHandoffParams(params)
            && location1 == Some(Redirect.DashboardRedirectUrl(QueryParams.Get(params, "scheme"), QueryParams.Get(params, "host"),
                                                             UriComponent.Encode(lib.chainJson(chain.value))))
            && logout1)
      && (chain.None? ==>
            && c == (if appKey.Some? && answers.identity.delegation.None? then Resolved else Rejected)
            && params1 == params && location1 == location0 && logout1 == logout0)
    }

    /** The session-key branch of `updateClient`. */
    method HandOff(key: Option<seq<Byte>>, answers: ClientAnswers, lib: Library, nowMs: nat) returns (c: Completion)
      requires HasSessionKey(searchParams)
      modifies this
      ensures isAuthenticated == old(isAuthenticated) && identity == old(identity)
      ensures principal == old(principal) && whoamiActor == old(whoamiActor)
      ensures middleKey == old(middleKey) && authClient == old(authClient)
      ensures HandedOff(old(searchParams), old(location), old(logoutStarted), key, answers, lib, nowMs, c, searchParams, location, logoutStarted)
    {
      var appPublicKey := lib.decodeSessionKey(QueryParams.Get(searchParams, "sessionkey").value);
      // `fromDer` throws, the identity is no `DelegationIdentity`, there is no middle key
      // to sign with, or `DelegationChain.create` rejects
      var chain := HandoffChain(appPublicKey, key, answers, lib, nowMs);
      if chain.None? {
        return if appPublicKey.Some? && answers.identity.delegation.None? then Resolved else Rejected;
      }
      RedirectWith(lib.chainJson(chain.value));
      return Resolved;
    }

    /**
     * Sends the browser to the dashboard's redirect with the encoded chain, after taking
     * the three handoff parameters out of the search parameters, and starts `logout`.
     */
    method RedirectWith(json: string)
      modifies this
      ensures isAuthenticated == old(isAuthenticated) && identity == old(identity)
      ensures principal == old(principal) && whoamiActor == old(whoamiActor)
      ensures middleKey == old(middleKey) && authClient == old(authClient)
      ensures searchParams == WithoutHandoffParams(old(searchParams))
      ensures location == Some(Redirect.DashboardRedirectUrl(QueryParams.Get(old(searchParams), "scheme"),
                                                             QueryParams.Get(old(searchParams), "host"), UriComponent.Encode(json)))
      ensures logoutStarted
    {
      var result := UriComponent.Encode(json);
      var redirectScheme := QueryParams.Get(searchParams, "scheme");
      var redirectHost := QueryParams.Get(searchParams, "host");
      searchParams := WithoutHandoffParams(searchParams);
      location := Some(Redirect.DashboardRedirectUrl(redirectScheme, redirectHost, result));
      logoutStarted := true;
    }

    /**
     * `initializeAuthClient`, run once at mount: keep the held middle key or use the
     * generated one, create the client on it only when a session key is given, and pass
     * both to `updateClient`. `c` is the completion of that inner `updateClient` call,
     * which `initializeAuthClient` does not await: its own promise resolves regardless,
     * and a rejection of `c` goes unhandled.
     */
    method InitializeAuthClient(generated: seq<Byte>, answers: ClientAnswers, lib: Library, nowMs: nat) returns (c: Completion)
      modifies this
      ensures middleKey == (if old(middleKey).Some? then old(middleKey) else Some(generated))
      ensures authClient == Some(Client(if HasSessionKey(old(searchParams)) then middleKey else None, false))
      ensures !HasSessionKey(old(searchParams)) ==>
        c == Resolved && isAuthenticated == answers.authenticated && identity == Some(answers.identity) &&
        searchParams == old(searchParams) && location == old(location)
      ensures !HasSessionKey(old(searchParams)) ==>
        principal == Some(answers.identity.principal) && whoamiActor == Some(answers.identity.principal) &&
        logoutStarted == old(logoutStarted)
      // with a session key, the handoff on the middle key runs and the dashboard state stays
      ensures HasSessionKey(old(searchParams)) ==>
        && isAuthenticated == old(isAuthenticated) && identity == old(identity)
        && principal == old(principal) && whoamiActor == old(whoamiActor)
        && HandedOff(old(searchParams), old(location), old(logoutStarted), middleKey, answers, lib, nowMs, c, searchParams, location, logoutStarted)
    {
      var newMiddleKey := middleKey;
      if middleKey.None? {
        newMiddleKey := Some(generated);
      }
      var client;
      if HasSessionKey(searchParams) {
        client := Client(newMiddleKey, false);
      } else {
        client := Client(None, false);
      }
      c := UpdateClient(client, newMiddleKey, answers, lib, nowMs);
    }

    /**
     * `logout`, given the `authClient` its closure captured: log that client out, then
     * `updateClient(authClient)` with no middle key, which throws when the captured client
     * is `null`, after its two setters have run.
     */
    method Logout(captured: Option<Client>, answers: ClientAnswers, lib: Library, nowMs: nat) returns (c: Completion)
      modifies this
      ensures middleKey == None
      ensures captured.None? ==>
        c == Rejected && authClient == None && searchParams == old(searchParams) && location == old(location) &&
        isAuthenticated == old(isAuthenticated) && identity == old(identity) &&
        principal == old(principal) && whoamiActor == old(whoamiActor) && logoutStarted == old(logoutStarted)
      ensures captured.Some? ==> authClient == Some(captured.value.(loggedOut := true))
      ensures captured.Some? && !HasSessionKey(old(searchParams)) ==>
        c == Resolved && isAuthenticated == answers.authenticated && identity == Some(answers.identity) &&
        searchParams == old(searchParams) && location == old(location)
      ensures captured.Some? && !HasSessionKey(old(searchParams)) ==>
        logoutStarted == old(logoutStarted) &&
        principal == Some(answers.identity.principal) && whoamiActor == Some(answers.identity.principal)
      // with a session key and no middle key no chain is made: the handoff only completes
      ensures captured.Some? && HasSessionKey(old(searchParams)) ==>
        && searchParams == old(searchParams) && location == old(location)
        && isAuthenticated == old(isAuthenticated) && identity == old(identity)
        && principal == old(principal) && whoamiActor == old(whoamiActor) && logoutStarted == old(logoutStarted)
        && c == (if lib.decodeSessionKey(QueryParams.Get(old(searchParams), "sessionkey").value).Some? && answers.identity.delegation.None?
                 then Resolved else Rejected)
    {
      if captured.None? {
        middleKey := None;
        authClient := None;
        return Rejected;
      }
      c := UpdateClient(captured.value.(loggedOut := true), None, answers, lib, nowMs);
    }
  }

  /**
   * The handoff from `login`'s `onSuccess`, where the render that runs `updateClient`
   * already holds `client`, so the `logout` it starts captured that same client: after
   * it, that `logout` takes the dashboard branch. (A handoff from the mount-time
   * `initializeAuthClient` starts a `logout` that captured `null`, which rejects.)
   */
  method HandoffThenLogout(hook: AuthHook, client: Client, key: seq<Byte>, answers: ClientAnswers, lib: Library, nowMs: nat, later: ClientAnswers)
    requires HasSessionKey(hook.searchParams)
    requires lib.decodeSessionKey(QueryParams.Get(hook.searchParams, "sessionkey").value).Some? && answers.identity.delegation.Some?
    requires lib.createChain(key, lib.decodeSessionKey(QueryParams.Get(hook.searchParams, "sessionkey").value).value,
                             HandoffExpiration(nowMs), answers.identity.delegation.value).Some?
    modifies hook
    ensures hook.logoutStarted && hook.location.Some?
    ensures !HasSessionKey(hook.searchParams)
    ensures hook.isAuthenticated == later.authenticated && hook.authClient == Some(client.(loggedOut := true))
  {
    var c := hook.UpdateClient(client, Some(key), answers, lib, nowMs);
    c := hook.Logout(Some(client), later, lib, nowMs);
  }
}
