/**
 * The parts of ic_websocket_gateway/src/canister_methods.rs that decide something
 * locally: the UTF-8-or-error-text fallback of `ws_open` and `ws_message`, agent set-up
 * in `get_new_agent`, and `validate_session` over the session store. The canister calls
 * themselves are inputs: each function receives the raw reply bytes.
 */
module CanisterMethods {
  import opened Wrappers
  import opened Numerals
  import Utf8
  import opened SessionJson
  import SessionStore

  /** The text sent to the client when the canister's reply is not UTF-8. */
  const INVALID_UTF8_RESPONSE: string := "{\"status\": \"error\", \"message\": \"Invalid UTF-8 response\"}"

  /** `String::from_utf8(response).unwrap_or_else(|_| <error text>)`. */
  function ResponseText(response: seq<Byte>): (text: string)
    ensures Utf8.Decode(response).None? ==> text == INVALID_UTF8_RESPONSE
    // bytes that encode no text at all are replaced by the error text
    ensures (forall s :: response != Utf8.Encode(s)) ==> text == INVALID_UTF8_RESPONSE
  {
    Utf8.EncodeDecode(response);
    match Utf8.Decode(response)
    case Some(s) => s
    case None => INVALID_UTF8_RESPONSE
  }

  /** A reply that is the UTF-8 encoding of a text is passed on as that text. */
  lemma ResponseTextOfEncoded(s: string)
    ensures ResponseText(Utf8.Encode(s)) == s
  {
    Utf8.DecodeEncode(s);
  }

  /** An overlong form is rejected: `[0xC0, 0x80]` yields the error text. */
  lemma ResponseTextOfOverlong()
    ensures ResponseText([0xC0, 0x80]) == INVALID_UTF8_RESPONSE
  {
  }

  /** An encoded surrogate is rejected: `[0xED, 0xA0, 0x80]` (U+D800) yields the error text. */
  lemma ResponseTextOfSurrogate()
    ensures ResponseText([0xED, 0xA0, 0x80]) == INVALID_UTF8_RESPONSE
  {
    var bs: seq<Byte> := [0xED, 0xA0, 0x80];
    assert bs[..3] == bs;
    assert (bs[0] as int - 0xE0) * 4096 + (bs[1] as int - 0x80) * 64 + (bs[2] as int - 0x80) == 0xD800;
  }

  /**
   * `ws_open`, given the outcome of the update call: `None` where the call fails and
   * `.expect("Failed to call ws_open")` panics; otherwise the reply as text.
   */
  function WsOpen(call: Option<seq<Byte>>): (text: Option<string>)
    ensures text.Some? <==> call.Some?
    ensures call.Some? ==> forall s :: call.value == Utf8.Encode(s) ==> text.value == s
    ensures call.Some? && Utf8.Decode(call.value).None? ==> text.value == INVALID_UTF8_RESPONSE
    ensures call.Some? && (forall s :: call.value != Utf8.Encode(s)) ==> text.value == INVALID_UTF8_RESPONSE
  {
    match call
    case None => None
    case Some(reply) =>
      forall s | reply == Utf8.Encode(s) ensures ResponseText(reply) == s {
        ResponseTextOfEncoded(s);
      }
      Some(ResponseText(reply))
  }

  /**
   * `ws_message`, given the outcome of the update call: `None` where the call fails and
   * `.expect("Failed to call ws_message")` panics; otherwise never an `Err`, and the reply
   * as text.
   */
  function WsMessage(call: Option<seq<Byte>>): (r: Option<Result<string, string>>)
    ensures r.Some? <==> call.Some?
    ensures r.Some? ==> r.value.Ok?
    ensures call.Some? ==> forall s :: call.value == Utf8.Encode(s) ==> r.value.value == s
    ensures call.Some? && Utf8.Decode(call.value).None? ==> r.value.value == INVALID_UTF8_RESPONSE
    ensures call.Some? && (forall s :: call.value != Utf8.Encode(s)) ==> r.value.value == INVALID_UTF8_RESPONSE
  {
    match WsOpen(call)
    case None => None
    case Some(text) => Some(Ok(text))
  }

  /** The gateway's constants for a local replica (main.rs, lines 25-26). */
  const URL: string := "http://127.0.0.1:4943"
  const FETCH_KEY: bool := true

  /** An agent, as far as the gateway can tell: where it talks to and whether it trusts a fetched root key. */
  datatype Agent = Agent(url: string, rootKeyFetched: bool)

  /** What the agent library reports for each step of `get_new_agent`. */
  datatype AgentSteps = AgentSteps(transport: Result<(), string>, build: Result<(), string>, fetchRootKey: Result<(), string>)

  /**
   * `get_new_agent`: create the transport, build the agent, and fetch the root key only
   * when `fetchKey` holds; the first failing step's message, with its prefix, is the error.
   */
  function GetNewAgent(url: string, fetchKey: bool, steps: AgentSteps): (r: Result<Agent, string>)
    ensures r.Ok? <==> steps.transport.Ok? && steps.build.Ok? && (fetchKey ==> steps.fetchRootKey.Ok?)
    ensures r.Ok? ==> r.value == Agent(url, fetchKey)
    ensures steps.transport.Err? ==> r == Err("Failed to create transport: " + steps.transport.error)
    ensures steps.transport.Ok? && steps.build.Err? ==> r == Err("Failed to build agent: " + steps.build.error)
    ensures steps.transport.Ok? && steps.build.Ok? && fetchKey && steps.fetchRootKey.Err?
      ==> r == Err("Failed to fetch root key: " + steps.fetchRootKey.error)
  {
    if steps.transport.Err? then Err("Failed to create transport: " + steps.transport.error)
    else if steps.build.Err? then Err("Failed to build agent: " + steps.build.error)
    else if fetchKey && steps.fetchRootKey.Err? then Err("Failed to fetch root key: " + steps.fetchRootKey.error)
    else Ok(Agent(url, fetchKey))
  }

  /** Without `fetchKey`, whatever the root-key step would report plays no part. */
  lemma NoFetchIgnoresRootKey(url: string, steps: AgentSteps, other: Result<(), string>)
    ensures GetNewAgent(url, false, steps) == GetNewAgent(url, false, steps.(fetchRootKey := other))
  {
  }

  /**
   * `validate_session` on what `get_session` returned: true exactly for a stored record
   * whose canister id is `canisterId`.
   */
  function ValidateSession(lookup: Result<Option<SessionData>, SessionStore.StoreError>, canisterId: string): (valid: bool)
    ensures valid <==> lookup.Ok? && lookup.value.Some? && lookup.value.value.canisterId == canisterId
  {
    match lookup
    case Ok(Some(session)) => session.canisterId == canisterId
    case _ => false
  }

  /** After a save, and until it expires, validation holds exactly for the saved canister. */
  lemma ValidateAfterSave(entries: map<string, SessionStore.Entry>, clientId: U64, data: SessionData, saved: nat, now: nat, canisterId: string)
    requires saved <= now < saved + SessionStore.SESSION_TTL
    ensures ValidateSession(SessionStore.Get(SessionStore.Saved(entries, clientId, data, saved), clientId, now, true), canisterId)
      <==> data.canisterId == canisterId
  {
    SessionStore.GetAfterSave(entries, clientId, data, saved, now);
  }

  /** Nothing stored (never saved, expired or removed) means not valid. */
  lemma ValidateWithoutSession(entries: map<string, SessionStore.Entry>, clientId: U64, now: nat, reachable: bool, canisterId: string)
    requires SessionStore.Lookup(entries, SessionStore.SessionKey(clientId), now).None?
    ensures !ValidateSession(SessionStore.Get(entries, clientId, now, reachable), canisterId)
  {
  }

  /** A store that cannot be reached means not valid. */
  lemma ValidateOnStoreError(entries: map<string, SessionStore.Entry>, clientId: U64, now: nat, canisterId: string)
    ensures !ValidateSession(SessionStore.Get(entries, clientId, now, false), canisterId)
  {
  }

  /** After `remove_session`, validation fails for every canister. */
  lemma ValidateAfterRemove(entries: map<string, SessionStore.Entry>, clientId: U64, now: nat, reachable: bool, canisterId: string)
    ensures !ValidateSession(SessionStore.Get(SessionStore.Removed(entries, clientId), clientId, now, reachable), canisterId)
  {
    SessionStore.GetAfterRemove(entries, clientId, now, reachable);
  }
}
