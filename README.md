# A verified model of the Sela Network ICP login handoff and WebSocket gateway

This project models, in Dafny, two cooperating parts of the Sela Network Internet Computer
repository:

- **The WebSocket gateway** (`ic_websocket_gateway`, Rust). It accepts client connections and
  checks each client's signed handshake. It records the session in Redis under
  `session:{id}` with a 24-hour expiry and relays frames to the canister's `ws_message`. One
  poller per canister fetches certified messages with `ws_get_messages` and hands each to its
  client's session, moving a nonce on from the message key's last `_` segment.
- **The browser side of the login handoff** (JavaScript). A native application opens a page
  with `?sessionkey=<hex DER key>&scheme=…&host=…`. The page logs in to Internet Identity and
  asks `DelegationChain.create` for a delegation to the session key. It then redirects to
  `<…>://<…>?del=<encodeURIComponent(JSON)>&status=true`. There are four variants:
  - `auth.js`, with its outbound socket queue in `ws.js`;
  - the dashboard's React hook `use-auth-client.jsx`;
  - two payload-building pages, `frontend/src/index.js` and `greet_frontend/src/index.js`;
  - the `App` class in `cannister_frontend/src/App.js`.

Modules, one per core file, plus shared value modules:

| module | file | models |
|---|---|---|
| `Gateway` | `gateway.dfy` | `main.rs`: `GatewaySession`, `CanisterPoller`, `GatewayServer` |
| `SessionStore` | `session_store.dfy` | `session_store.rs`, with the Redis key space as a map |
| `SessionJson` | `session_json.dfy` | the serde_json text of `SessionData`, written and read back |
| `CanisterMethods` | `canister_methods.dfy` | `canister_methods.rs`: the reply-to-text fallback, `get_new_agent`, `validate_session` |
| `WsQueue` | `ws_queue.dfy` | `ws.js` |
| `FrontendAuth` | `frontend_auth.dfy` | `auth.js` |
| `DashboardAuth` | `dashboard_auth.dfy` | `use-auth-client.jsx` |
| `FrontendIndex` | `frontend_index.dfy` | `frontend/src/index.js` |
| `GreetIndex` | `greet_index.dfy` | `greet_frontend/src/index.js` |
| `CanisterApp` | `canister_app.dfy` | `cannister_frontend/src/App.js` |
| `Hex`, `HandoffPayload` | `hex.dfy`, `handoff_payload.dfy` | `bytesToHex` (identical in three files) and the handoff payload |
| `UriComponent`, `Utf8` | `uri_component.dfy`, `utf8.dfy` | `encodeURIComponent`/`decodeURIComponent`; UTF-8 as `String::from_utf8` checks it |
| `Redirect`, `QueryParams` | `redirect.dfy`, `query_params.dfy` | the two redirect templates and how a receiver reads them; `URLSearchParams` `get`/`delete` |
| `Delegations`, `Numerals`, `Wrappers` | | the library's data and calls as inputs; decimal numerals and `u64` parsing; `Option`/`Result` |

State that the source updates in place is a `class`:
- gateway sessions, the server, the pollers and the Redis store;
- the ws.js socket state;
- each page's module state, and the React hook's state with every setter applied.

The pure helpers are functions. Each loop of the source is a `while` loop with its invariants:
- the `for` over one `ws_get_messages` reply is proved equal to the function `Gateway.Poll`;
- the `onopen` flush is proved to send `WrapAll` of the old queue.

Library calls are inputs of the operations:
- `Ed25519PublicKey.fromDer(fromHexString(k))`, `DelegationChain.create` and
  `JSON.stringify(chain.toJSON())` are the functions of `Delegations.Library`;
- `isAuthenticated()`, `getIdentity()`, whether `login` ever calls back, the canister's
  replies and the signature check are plain parameters.

`encodeURIComponent`, `decodeURIComponent`, `bytesToHex`, `String::from_utf8`, `u64::parse` and
the serde_json layout of `SessionData` are written out, so their round trips are theorems.

Where the code's behaviour looks unintended, the model follows the code:
- **Missing redirect parameters render as `"null"`.** A missing `scheme` or `host` parameter
  is rendered into the redirect as the text `null`; no error is raised (`Redirect.Render`).
- **The dashboard's redirect swaps its parameters.** It writes `${redirectHost}://${redirectScheme}`.
  A receiver reads the `host` parameter as the scheme and the `scheme` parameter as the host
  (`Redirect.DashboardRedirectSwapped`). That redirect coincides with `auth.js`'s only when
  the two parameters render alike (`Redirect.TemplatesDiffer`).
- **Queued socket messages are wrapped twice.** `ws.js` queues `{ message }` and, on open,
  passes each queued object back through `sendMessage`. A message queued while the socket was
  closed therefore reaches `ws.send` as `{ message: { message } }` (`WsQueue.ReconnectScenario`).
- **No code sets `_delegation`.** `frontend/src/index.js` and `greet_frontend/src/index.js`
  read `options.identity._delegation.delegations`, but nothing in either file sets
  `_delegation` on a `SessionIdentity`. The property is therefore an input. With it absent,
  an authenticated run rejects with a TypeError before any payload is logged
  (`FrontendIndex.AuthenticatedRunLogsNothing`). `greet_frontend/src/index.js` also uses
  `SessionIdentity` without defining or importing it; whether a binding is in scope is an
  input too.
- **The dashboard's handoff calls `logout` on a stale client.** The hook's `logout` closes
  over the `authClient` of the render that created it, which is `null` at mount. It is
  modelled as taking that captured client (`DashboardAuth.AuthHook.Logout`).

## Model

| member | source | states |
|---|---|---|
| Numerals.DecimalValue | ic_websocket_gateway/src/session_store.rs:26 | the decimal numeral `{}` writes for a number reads back as that number |
| Numerals.DecimalInjective | ic_websocket_gateway/src/session_store.rs:26 | distinct numbers have distinct numerals |
| Numerals.Decimal | ic_websocket_gateway/src/session_store.rs:26 | the numeral is non-empty, all digits, and starts with `0` only for zero itself |
| Numerals.ParseU64 | ic_websocket_gateway/src/main.rs:235-236 | `parse::<u64>()` succeeds only on an optional `+` and digits, with their value below 2^64 |
| Numerals.ParseDigits | ic_websocket_gateway/src/main.rs:235-236 | conversely, every non-empty digit string below 2^64, leading zeros allowed, parses to its value with or without a leading `+` |
| Numerals.HexDigit | src/frontend/src/index.js:14 | the digit of a value below 16 is a hex digit of that value, lower- or upper-case as asked |
| Numerals.ParseDecimal | ic_websocket_gateway/src/main.rs:230-236 | parsing the numeral of any `u64` gives it back |
| Utf8.Encode | ic_websocket_gateway/src/canister_methods.rs:93-94 | the UTF-8 bytes of a text, at least one per character; inverse of `Utf8.Decode` by `Utf8.DecodeEncode` and `Utf8.EncodeDecode` |
| Utf8.Decode | ic_websocket_gateway/src/canister_methods.rs:93-94 | `String::from_utf8`: strict decoding; accepts exactly the encodings of texts (`Utf8.DecodeEncode`, `Utf8.EncodeDecode`) |
| Utf8.EncodeDecode | ic_websocket_gateway/src/canister_methods.rs:93-94 | whatever the strict decoder accepts is the encoding of the text it returns, so it accepts exactly the encodings of texts |
| Utf8.DecodeSequenceEncodes | ic_websocket_gateway/src/canister_methods.rs:93-94 | a sequence the decoder accepts as one scalar value is that value's encoding |
| Utf8.DecodeEncode | ic_websocket_gateway/src/canister_methods.rs:93-94 | the strict UTF-8 decoder accepts the encoding of every text and returns that text |
| Utf8.EncodeCharDecodes | ic_websocket_gateway/src/canister_methods.rs:93-94 | the one-to-four-byte encoding of a scalar value decodes to it, overlong and surrogate checks included |
| Utf8.EncodeChar | ic_websocket_gateway/src/canister_methods.rs:93-94 | one to four bytes; a single byte exactly below 0x80, equal to the scalar value; the rest continuation bytes |
| CanisterMethods.ResponseText | ic_websocket_gateway/src/canister_methods.rs:93-94 | bytes that are not UTF-8 become the fixed error text; bytes that encode no text at all do too |
| CanisterMethods.ResponseTextOfEncoded | ic_websocket_gateway/src/canister_methods.rs:93-94 | a reply that encodes a text is passed on as exactly that text |
| CanisterMethods.ResponseTextOfOverlong | ic_websocket_gateway/src/canister_methods.rs:93-94 | the overlong form `C0 80` is refused and becomes the error text |
| CanisterMethods.ResponseTextOfSurrogate | ic_websocket_gateway/src/canister_methods.rs:93-94 | the encoded surrogate `ED A0 80` is refused and becomes the error text |
| CanisterMethods.WsOpen | ic_websocket_gateway/src/canister_methods.rs:81-95 | a failed call panics (`expect`, line 88); otherwise the reply becomes the text it encodes, or the error text when it encodes none |
| CanisterMethods.WsMessage | ic_websocket_gateway/src/canister_methods.rs:111-122 | a failed call panics (`expect`, line 118); otherwise `Ok` of the text the reply encodes, or of the error text; never `Err` |
| CanisterMethods.GetNewAgent | ic_websocket_gateway/src/canister_methods.rs:39-56 | an agent on exactly when transport, build and (if asked) root-key fetch succeed; otherwise the first failing step's message with its prefix |
| CanisterMethods.NoFetchIgnoresRootKey | ic_websocket_gateway/src/canister_methods.rs:49-53 | without `fetch_key` the root-key step cannot affect the outcome |
| CanisterMethods.ValidateSession | ic_websocket_gateway/src/canister_methods.rs:141-150 | true exactly for a stored record whose canister id matches; false on store errors and on no record |
| CanisterMethods.ValidateAfterSave | ic_websocket_gateway/src/canister_methods.rs:141-150 | after a save and before expiry, validation holds iff the canister id is the saved one |
| CanisterMethods.ValidateWithoutSession | ic_websocket_gateway/src/canister_methods.rs:146-148 | with nothing stored under the key, validation fails |
| CanisterMethods.ValidateOnStoreError | ic_websocket_gateway/src/canister_methods.rs:146-148 | an unreachable store makes validation fail |
| CanisterMethods.ValidateAfterRemove | ic_websocket_gateway/src/canister_methods.rs:141-150 | after `remove_session`, validation fails for every canister |
| SessionJson.Serialize | ic_websocket_gateway/src/session_store.rs:25 | `serde_json::to_string` of `SessionData`; read back by `SessionJson.ParseSerialize` |
| SessionJson.Parse | ic_websocket_gateway/src/session_store.rs:35 | `serde_json::from_str` on the layout the store writes; inverse of `SessionJson.Serialize` by `SessionJson.ParseSerialize` |
| SessionJson.ParseSerialize | ic_websocket_gateway/src/session_store.rs:25-35 | serde_json reads back exactly the `SessionData` it wrote, for every canister-id text |
| SessionJson.ParseEscapedString | ic_websocket_gateway/src/session_store.rs:25-35 | every string, escaped as serde_json writes it and closed by a quote, reads back as itself |
| SessionJson.ParseNumberDecimal | ic_websocket_gateway/src/session_store.rs:25-35 | a written `u64` field followed by a non-digit reads back as its value |
| SessionStore.SessionKeyInjective | ic_websocket_gateway/src/session_store.rs:26 | different ids never share a Redis key |
| SessionStore.Lookup | ic_websocket_gateway/src/session_store.rs:26-32 | the value stored under a key that has not expired, else nothing; described by `SessionStore.GetAfterSave`, `GetAfterExpiry` and `GetAfterRemove` |
| SessionStore.Get | ic_websocket_gateway/src/session_store.rs:30-38 | a connection failure is an error; a missing or expired key reads as `Ok(None)` |
| SessionStore.GetAfterSave | ic_websocket_gateway/src/session_store.rs:23-38 | until 86400 seconds have passed, a saved record reads back unchanged |
| SessionStore.GetAfterExpiry | ic_websocket_gateway/src/session_store.rs:26 | from the expiry second on, a saved record reads as absent |
| SessionStore.GetAfterRemove | ic_websocket_gateway/src/session_store.rs:40-44 | after removal the id reads as absent, or the read fails to connect |
| SessionStore.SaveIsolated | ic_websocket_gateway/src/session_store.rs:23-28 | saving one id leaves the reading of every other id unchanged |
| SessionStore.RemoveIsolated | ic_websocket_gateway/src/session_store.rs:40-44 | removing one id leaves the reading of every other id unchanged |
| SessionStore.RedisSessionStore.constructor | ic_websocket_gateway/src/session_store.rs:18-21 | a new store holds no keys |
| SessionStore.RedisSessionStore.SaveSession | ic_websocket_gateway/src/session_store.rs:23-28 | succeeds iff the server is reachable, then writes the JSON under `session:{id}` expiring after 86400 seconds; changes nothing otherwise |
| SessionStore.RedisSessionStore.GetSession | ic_websocket_gateway/src/session_store.rs:30-38 | returns `SessionStore.Get` of the key space: the record, `None`, a connection error or a JSON error |
| SessionStore.RedisSessionStore.RemoveSession | ic_websocket_gateway/src/session_store.rs:40-44 | succeeds iff reachable, then the key is gone (deleting a missing key succeeds) |
| Gateway.GatewaySession.constructor | ic_websocket_gateway/src/main.rs:284-295 | a new session is not connected, knows no client or canister, has sent nothing |
| Gateway.GatewaySession.Binary | ic_websocket_gateway/src/main.rs:75-153 | four cases. Connected: the `ws_message` reply is relayed, or a failed call panics with nothing sent. Undecodable handshake or wrong signature length: a panic with nothing changed. Bad signature: the error text only. Valid: connected, session saved (if reachable), `ConnectCanister` posted, then the `ws_open` reply sent or, when that call fails, a panic. Connected iff client and canister known |
| Gateway.NextNonce | ic_websocket_gateway/src/main.rs:230-237 | the nonce after a message: its key's last `_` segment parsed as a `u64`, plus one, or a panic; see `Gateway.NextNonceOfKey` and its instances |
| Gateway.Deliver | ic_websocket_gateway/src/main.rs:206-228 | one message's delivery: to `clients[client_id]` with its key, value and the reply's certificate and tree when that session is registered and alive, otherwise nothing; see `Gateway.DeliverAllSkipsUnserved` |
| Gateway.Poll | ic_websocket_gateway/src/main.rs:204-238 | one round over a reply; its deliveries and panic are described by `Gateway.PollDeliversProcessedPrefix`, its nonce by `Gateway.PollNonceFromLastKey` |
| Gateway.LastSegment | ic_websocket_gateway/src/main.rs:230-234 | the result has no `_`, and is the whole key or preceded by `_` |
| Gateway.LastSegmentIsSuffix | ic_websocket_gateway/src/main.rs:230-234 | the last segment is a suffix of the key |
| Gateway.LastSegmentOfSuffix | ic_websocket_gateway/src/main.rs:230-234 | for `prefix_suffix` with no `_` in the suffix, the last segment is the suffix |
| Gateway.NextNonceOfKey | ic_websocket_gateway/src/main.rs:230-237 | a key whose last `_`-free segment parses as n sets the nonce to n + 1 |
| Gateway.NextNonceOfNumeral | ic_websocket_gateway/src/main.rs:230-237 | a key ending in `_` and the decimal numeral of n sets the nonce to n + 1 |
| Gateway.NextNonceOfPadded | ic_websocket_gateway/src/main.rs:230-237 | the zero-padded key `gw_007` sets the nonce to 8 |
| Gateway.NextNonceOfSigned | ic_websocket_gateway/src/main.rs:230-237 | the signed key `gw_+7` sets the nonce to 8 |
| Gateway.PollNonceFromLastKey | ic_websocket_gateway/src/main.rs:206-238 | after a completed round the nonce depends only on the last message's key |
| Gateway.PollEmpty | ic_websocket_gateway/src/main.rs:204-206 | an empty reply keeps the nonce and sends nothing |
| Gateway.PollDeliversToRegistered | ic_websocket_gateway/src/main.rs:206-228 | at most one delivery per message, each to a live registered session with the reply's certificate and tree; nothing for unknown clients |
| Gateway.DeliverAll | ic_websocket_gateway/src/main.rs:206-228 | at most one delivery per message |
| Gateway.ProcessedCount | ic_websocket_gateway/src/main.rs:206-238 | the loop handles every message before the first unparsable key, and that key's message only when it stops early |
| Gateway.PollDeliversProcessedPrefix | ic_websocket_gateway/src/main.rs:206-238 | a round's deliveries are, in the reply's order, each handled message's delivery to `clients[client_id]` with its key and value, or nothing for an unknown or closed client; it panics iff the last handled key is unparsable |
| Gateway.DeliverAllAppend | ic_websocket_gateway/src/main.rs:206-228 | deliveries of a concatenation are the concatenation of the deliveries |
| Gateway.DeliverAllSkipsUnserved | ic_websocket_gateway/src/main.rs:208-228 | a message for an unknown client or closed session, wherever it stands, changes nothing that is delivered |
| Gateway.CanisterPoller.constructor | ic_websocket_gateway/src/main.rs:336-340 | a new poller belongs to its canister and has no clients |
| Gateway.CanisterPoller.AddSession | ic_websocket_gateway/src/main.rs:246-250 | inserts or overwrites the client's session in the map; on a poisoned map it panics and inserts nothing |
| Gateway.CanisterPoller.RunPolling | ic_websocket_gateway/src/main.rs:188-199 | the polling task runs exactly when `get_new_agent` succeeds; otherwise it returns early and no round ever runs |
| Gateway.CanisterPoller.PollMessages | ic_websocket_gateway/src/main.rs:199-238 | a round of a running task: the loop's deliveries and final nonce (or panic on a key whose last segment is not a `u64`) equal `Gateway.Poll`; a panic, with the map's guard held, ends the task and poisons the map |
| Gateway.GatewayServer.constructor | ic_websocket_gateway/src/main.rs:388-396 | counter 0, no canisters, no close arguments |
| Gateway.GatewayServer.Accept | ic_websocket_gateway/src/main.rs:269-301 | the new session gets the counter's id, which moves on by one; ids already issued stay strictly increasing and below the counter |
| Gateway.GatewayServer.Disconnected | ic_websocket_gateway/src/main.rs:303-318 | the session's close arguments are taken out; only when there were some is the record removed and `ws_close` called |
| Gateway.GatewayServer.Call | ic_websocket_gateway/src/main.rs:320-351 | records the close arguments and adds the client to the canister's poller. An absent poller is created, started and registered even when its agent fails and it never polls. A poisoned poller makes `call` panic with the client not added. Other canisters' pollers are unchanged |
| WsQueue.WrapAll | src/frontend/src/utils/ws.js:38-40 | the flush passes each queued entry through `sendMessage`: same length, entry i wrapped once more |
| WsQueue.WrapAllAppend | src/frontend/src/utils/ws.js:38-40 | wrapping distributes over concatenation |
| WsQueue.OutboundSocket.constructor | src/frontend/src/utils/ws.js:22-23 | not connected, nothing queued, nothing sent |
| WsQueue.OutboundSocket.SendMessage | src/frontend/src/utils/ws.js:25-33 | connected: `{ message }` is sent; not connected: it is queued |
| WsQueue.OutboundSocket.OnOpen | src/frontend/src/utils/ws.js:35-41 | connected, the queue empties, and the queued entries are sent in order, each wrapped once more |
| WsQueue.OutboundSocket.OnClose | src/frontend/src/utils/ws.js:43-46 | not connected; queue and sent messages untouched |
| WsQueue.ReconnectScenario | src/frontend/src/utils/ws.js:25-46 | texts sent while closed arrive after reopening, after the earlier queue, in order, each as `{ message: { message } }` |
| QueryParams.Get | src/frontend/src/auth.js:21 | `null` iff the name is absent; otherwise the value of its first pair |
| QueryParams.Delete | src/dashboard/use-auth-client.jsx:136-138 | removes every pair with the name and keeps all the others |
| QueryParams.GetDeleted | src/dashboard/use-auth-client.jsx:136-138 | after deleting a name, `get` of it is `null` |
| QueryParams.GetOtherAfterDelete | src/dashboard/use-auth-client.jsx:136-138 | deleting one name leaves `get` of every other name unchanged |
| UriComponent.Encode | src/frontend/src/auth.js:86 | the output holds only unreserved characters and `%`; non-empty input gives non-empty output |
| UriComponent.Decode | src/frontend/src/auth.js:86 | the receiver's `decodeURIComponent` of the `del` parameter; undoes `UriComponent.Encode` by `UriComponent.DecodeEncode` |
| UriComponent.DecodeEncodeChar | src/frontend/src/auth.js:86 | decoding consumes exactly the escapes of one character and yields it |
| UriComponent.DecodeEncode | src/frontend/src/auth.js:86 | `decodeURIComponent(encodeURIComponent(s)) == s` for every string of scalar values |
| Redirect.Render | src/frontend/src/auth.js:164 | a template renders a present parameter as itself and a missing one (`null`) as `null` |
| Redirect.RedirectUrl | src/frontend/src/auth.js:164 | `${scheme}://${host}?del=${result}&status=true`; read back by `Redirect.RedirectRoundTrip` |
| Redirect.DashboardRedirectUrl | src/dashboard/use-auth-client.jsx:141 | `${host}://${scheme}?del=${result}&status=true`; compared with it by `Redirect.DashboardRedirectSwapped` and `Redirect.TemplatesDiffer` |
| Redirect.EncodedHasNoAmpersand | src/frontend/src/auth.js:86 | an encoded delegation never contains `&`, so it cannot end the `del` parameter early |
| Redirect.SplitFirst | src/frontend/src/auth.js:164 | splits at the first occurrence of the character, with none before it, or gives `None` when it does not occur |
| Redirect.SplitFirstConcat | src/frontend/src/auth.js:164 | a text with no `c` before the joining `c` is split back into its two parts |
| Redirect.ParseBack | src/frontend/src/auth.js:164 | the template is read back into its three parts when the first has no `:` and the second no `?` |
| Redirect.RedirectRoundTrip | src/frontend/src/auth.js:159-165 | the receiver reads back `scheme`, `host` and a `del` that decodes to exactly the chain's JSON |
| Redirect.DashboardRedirectSwapped | src/dashboard/use-auth-client.jsx:133-141 | the dashboard's redirect is read with scheme and host exchanged |
| Redirect.TemplatesDiffer | src/dashboard/use-auth-client.jsx:141 | the two templates agree iff scheme and host render alike |
| Hex.BytesToHex | src/frontend/src/index.js:12-16 | `bytesToHex`; its shape is `Hex.BytesToHexShape`, its inverse `Hex.HexRoundTrip` |
| Hex.ByteToHexDigits | src/frontend/src/index.js:14 | one byte gives two lower-case digits, zero-padded, high nibble first |
| Hex.BytesToHexShape | src/frontend/src/index.js:12-16 | output length 2n, lower-case hex only, characters 2i and 2i+1 are byte i's digits |
| Hex.HexRoundTrip | src/greet_frontend/src/index.js:12-16 | reading the hex back gives the bytes |
| Hex.BytesToHexInjective | src/cannister_frontend/src/App.js:13-17 | distinct byte strings give distinct hex |
| Delegations.HandoffExpiration | src/frontend/src/auth.js:80 | the delegation expires five days (432000000 ms) after now |
| HandoffPayload.Entries | src/frontend/src/index.js:74-80 | one entry per delegation, same order, entry i built from delegation i |
| HandoffPayload.BuildPayload | src/frontend/src/index.js:74-88 | `status` true, as many entries as delegations, `publicKey` the 2n-digit lower-case hex of the DER key |
| HandoffPayload.ReadEntryOf | src/frontend/src/index.js:75-79 | an entry reads back to its delegation: decimal expiry, hex key and signature |
| HandoffPayload.ReadEntriesBack | src/greet_frontend/src/index.js:50-56 | the entries read back to the chain's delegations in order |
| HandoffPayload.PayloadRoundTrip | src/frontend/src/index.js:74-88 | the payload reads back to the chain's delegations and the DER key |
| HandoffPayload.PayloadInjective | src/greet_frontend/src/index.js:50-64 | equal payloads come from equal delegations and keys |
| FrontendAuth.ParamOrEmpty | src/frontend/src/auth.js:21 | empty iff the parameter is absent or empty |
| FrontendAuth.AuthPage.constructor | src/frontend/src/auth.js:14-17 | the anonymous backend actor, no client, no result, no redirect |
| FrontendAuth.AuthPage.SetupAuth | src/frontend/src/auth.js:19-94 | the socket's connection state is untouched. No key: nothing changes. `fromDer` fails: rejects. Otherwise a middle-key client. Login pending or not authenticated: nothing else. Authenticated: new actor, announcement sent or queued, and `result` is the encoded chain exactly when the chain is created |
| FrontendAuth.AuthPage.HandleLogout | src/frontend/src/auth.js:134-151 | without a client or on a failed logout nothing changes; otherwise the client is logged out and the page reset |
| FrontendAuth.AuthPage.CallWhoami | src/frontend/src/auth.js:153-169 | shows the principal; redirects with `auth.js`'s template only when `result` is non-empty; nothing on a rejected call |
| FrontendAuth.Handoff | src/frontend/src/auth.js:19-169 | after a successful `setupAuth` and `callWhoami` the receiver reads the scheme, the host and a `del` decoding to the chain's JSON |
| FrontendIndex.SessionIdentity.Sign | src/frontend/src/index.js:28-30 | every call fails with `Not implemented` |
| FrontendIndex.KeyOfNewIdentity | src/frontend/src/index.js:19-26 | `getPublicKey` returns the key the identity was made with |
| FrontendIndex.IndexPage.constructor | src/frontend/src/index.js:9 | the backend actor, no client, nothing logged |
| FrontendIndex.IndexPage.SetupAuth | src/frontend/src/index.js:34-97 | no key: no client, no payload. `fromDer` fails: rejects. Otherwise exactly one client on the session key. Authenticated: actor on the session key, and the logged payload is `BuildPayload` of `_delegation` and reads back to it, or a TypeError without `_delegation` |
| FrontendIndex.AuthenticatedRunLogsNothing | src/frontend/src/index.js:74 | on a session identity without `_delegation`, an authenticated run logs no payload |
| GreetIndex.GreetPage.SetupAuth | src/greet_frontend/src/index.js:19-70 | with a usable key and a binding, the options carry the session identity. A client is created with or without a key. Not authenticated: only an error. Authenticated: actor on the options' identity, and the payload needs both the identity and `_delegation` |
| GreetIndex.NoKeyNoPayload | src/greet_frontend/src/index.js:40-50 | without a session key no payload is ever logged, though a client is created |
| GreetIndex.GreetPage.constructor | src/greet_frontend/src/index.js:9 | the greet actor, no client, nothing logged |
| DashboardAuth.SafariMatchFromMeaning | src/dashboard/use-auth-client.jsx:21 | the recursive regex matcher from i equals a declarative reading: `safari` at some k with no `chrome`, `android` or line break starting in between |
| DashboardAuth.IsSafari | src/dashboard/use-auth-client.jsx:21 | the regex test; its meaning is `DashboardAuth.IsSafariMeaning` |
| DashboardAuth.IsSafariMeaning | src/dashboard/use-auth-client.jsx:21 | `/^((?!chrome\|android).)*safari/i` matches iff `safari` occurs with no `chrome`, `android` or line break starting before it |
| DashboardAuth.ChromeIsNotSafari | src/dashboard/use-auth-client.jsx:21 | `Chrome Safari` is not taken for Safari |
| DashboardAuth.SafariIsSafari | src/dashboard/use-auth-client.jsx:21 | `Version Safari` is taken for Safari |
| DashboardAuth.GetIdentityProvider | src/dashboard/use-auth-client.jsx:15-29 | an address iff there is a window and the network is not `ic`; Safari gets `http://localhost:4943/?canisterId=<id>`, any other agent `http://<id>.localhost:4943` |
| DashboardAuth.WithoutHandoffParams | src/dashboard/use-auth-client.jsx:136-138 | `scheme`, `host`, `sessionkey` read as `null`; every other parameter as before |
| DashboardAuth.HandoffChain | src/dashboard/use-auth-client.jsx:122-128 | a chain only with a decoded app key, a delegation identity and a middle key, and with all three exactly what `DelegationChain.create` gives for them, expiring five days on |
| DashboardAuth.AuthHook.constructor | src/dashboard/use-auth-client.jsx:57-65 | every piece of state starts `false` or `null` |
| DashboardAuth.AuthHook.UpdateClient | src/dashboard/use-auth-client.jsx:100-154 | stores key and client. Without a session key: records login state, identity, principal and actor. With one: the dashboard fields stay and the handoff runs |
| DashboardAuth.AuthHook.HandOff | src/dashboard/use-auth-client.jsx:117-144 | when the chain is created: the three parameters deleted, the swapped redirect with the encoded chain, `logout` started; otherwise nothing changes |
| DashboardAuth.AuthHook.RedirectWith | src/dashboard/use-auth-client.jsx:130-143 | deletes the handoff parameters, redirects with the encoded JSON, starts `logout` |
| DashboardAuth.AuthHook.InitializeAuthClient | src/dashboard/use-auth-client.jsx:68-85 | keeps a held middle key or uses the generated one; the client uses it only with a session key. Without one the four dashboard fields are set and `logout` is not started; with one they stay and the handoff runs on the middle key |
| DashboardAuth.AuthHook.Logout | src/dashboard/use-auth-client.jsx:156-159 | a `null` captured client rejects after clearing key and client, all else unchanged. Otherwise the logged-out client goes through `updateClient` with no middle key: without a session key the four dashboard fields are set; with one no chain can be made, nothing else changes, and it resolves iff the session key decodes and the identity is not a `DelegationIdentity` |
| DashboardAuth.HandoffThenLogout | src/dashboard/use-auth-client.jsx:117-159 | after a handoff run from `login`'s `onSuccess`, whose `logout` captured the same client, that `logout` takes the dashboard branch |
| CanisterApp.ProviderUrl | src/cannister_frontend/src/App.js:43-55 | the provider address is the Internet Identity prefix followed by hex from which the DER key reads back |
| CanisterApp.AppData.constructor | src/cannister_frontend/src/App.js:9-10 | no delegation data and no agent data |
| CanisterApp.App.constructor | src/cannister_frontend/src/App.js:32-35 | not authenticated; rendered with the login button enabled and the app button disabled |
| CanisterApp.App.Render | src/cannister_frontend/src/App.js:20-29 | login button disabled iff authenticated, app button iff not; both data blocks shown as they are |
| CanisterApp.App.LoginWithInternetIdentity | src/cannister_frontend/src/App.js:38-55 | the session key is the hex of the DER key; a provider address iff `AuthClient.create` resolves; the page is unchanged |
| CanisterApp.App.OnLoginSuccess | src/cannister_frontend/src/App.js:56-99 | authenticated; after `whoami` answers, `delegationData` is `{principal, sessionKey, true, whoami}`, `agentData` set and re-rendered; a rejected `whoami` leaves both data and view |
| CanisterApp.App.TakeMeToApp | src/cannister_frontend/src/App.js:110-114 | alerts iff there is delegation or agent data |
| CanisterApp.SuccessfulLogin | src/cannister_frontend/src/App.js:38-114 | after a full login the page shows the session key from which the DER key reads back, the app button is enabled and alerts |

## Left out

- Network I/O, tokio tasks and ezsockets: canister calls, Redis connections and socket frames
  are inputs and outputs of the operations. Concurrency between sessions and the poller's
  `Mutex` are not modelled.
- The polling loop runs forever with a 200 ms sleep. The model proves one round
  (`Gateway.CanisterPoller.PollMessages`); repeated rounds are repeated calls.
- CBOR decoding of the handshake and Ed25519 signature verification are inputs
  (`decode`, `signatureValid`). Only the 64-byte length check of `Signature::from_slice` is
  written out.
- `Principal::from_text(...).unwrap()` panics on an ill-formed canister id in `binary`,
  `run_polling` and `disconnected`. The model treats every canister id text as valid.
- `ws_get_client_key`, `ws_close` and `ws_get_messages` decode candid, and unwrap or panic
  on failure; they are left out. Their replies are inputs.
- Gateway.GatewayServer.Accept: `next_session_id` is a `u64`; the model does not wrap it at
  2^64, which needs 2^64 connections.
- Gateway.NextNonceOfKey: `nonce += 1` on `u64::MAX` overflows. The model's nonce is
  unbounded, so the overflow of that last step is not modelled.
- `get_new_agent` in `accept` uses `.expect`, so a failure panics the server task. The
  agent is not modelled, and `Accept` always succeeds.
- In `binary`, `SystemTime::now()` and the Redis expiry clock are one `now` parameter.
- `RedisSessionStore::new` parses the Redis URL; the model starts from an empty store.
- serde_json also accepts whitespace, reordered fields and other inputs that
  `SessionJson.Parse` refuses. `Parse` reads only the layout `serde_json::to_string`
  writes, which is all the store ever holds.
- The DOM, `console.log`, `alert`, React rendering and lit-html are left out. Each page's
  visible results are fields: texts, button states, the assigned `window.location.href` and
  the logged payloads.
- `auth.js`'s `testDB_operations` catches all its errors and changes no modelled state. The
  two health checks are one input saying whether both resolve.
- The dashboard's `login` callback is not modelled beyond what `updateClient` does.
  `defaultOptions` only supplies `getIdentityProvider()`, which is modelled.
- DashboardAuth.AuthHook.InitializeAuthClient: the hook's middle key is always `null` at
  mount, so the "reuse the held key" branch is reachable only through the model's
  generality.
- Parsing of the page address is abstracted. `new URL(...).searchParams`,
  `new URLSearchParams(window.location.search)` and `useSearchParams` are not written out,
  and neither are percent-decoding and reading `+` as a space. `QueryParams.Params` is the
  list of already-decoded name/value pairs in the order of the query.
- Library internals are inputs and not modelled: the `AuthClient` storage, idle handling,
  key generation, `DelegationChain.create` signing and `toJSON`.
