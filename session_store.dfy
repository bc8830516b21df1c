/**
 * The gateway's Redis session store (ic_websocket_gateway/src/session_store.rs):
 * one JSON value per client under the key `session:{id}`, written with a 24-hour expiry.
 * The Redis server is modelled by its key space; the clock and the reachability of the
 * server are inputs of each operation.
 */
module SessionStore {
  import opened Wrappers
  import opened Numerals
  import opened SessionJson

  /** The expiry `save_session` passes to `SETEX`, in seconds. */
  const SESSION_TTL: nat := 86400

  /** A stored value and the second at which Redis drops it. */
  datatype Entry = Entry(value: string, expiresAt: nat)

  /** The failures `get_session` and friends propagate with `?`. */
  datatype StoreError = ConnectionFailed | MalformedJson

  /** `format!("session:{}", session_id)`. */
  function SessionKey(sessionId: U64): string {
    "session:" + Decimal(sessionId)
  }

  /** Different ids never share a key. */
  lemma SessionKeyInjective(a: U64, b: U64)
    requires SessionKey(a) == SessionKey(b)
    ensures a == b
  {
    assert Decimal(a) == SessionKey(a)[8..];
    assert Decimal(b) == SessionKey(b)[8..];
    DecimalInjective(a, b);
  }

  /** Redis `GET`: the value under `key` unless it is missing or has expired at `now`. */
  function Lookup(entries: map<string, Entry>, key: string, now: nat): Option<string> {
    if key in entries && now < entries[key].expiresAt then Some(entries[key].value) else None
  }

  /** The key space after `SETEX session:{id} 86400 <json>` at second `now`. */
  function Saved(entries: map<string, Entry>, sessionId: U64, data: SessionData, now: nat): map<string, Entry> {
    entries[SessionKey(sessionId) := Entry(Serialize(data), now + SESSION_TTL)]
  }

  /** The key space after `DEL session:{id}`. */
  function Removed(entries: map<string, Entry>, sessionId: U64): map<string, Entry> {
    entries - {SessionKey(sessionId)}
  }

  /** What `get_session` returns for this key space. */
  function Get(entries: map<string, Entry>, sessionId: U64, now: nat, reachable: bool): (r: Result<Option<SessionData>, StoreError>)
    ensures !reachable ==> r == Err(ConnectionFailed)
    ensures reachable && Lookup(entries, SessionKey(sessionId), now).None? ==> r == Ok(None)
  {
    if !reachable then Err(ConnectionFailed)
    else match Lookup(entries, SessionKey(sessionId), now)
      case None => Ok(None)
      case Some(text) =>
        match Parse(text)
        case None => Err(MalformedJson)
        case Some(d) => Ok(Some(d))
  }

  /** Until it expires, a saved record reads back unchanged. */
  lemma GetAfterSave(entries: map<string, Entry>, sessionId: U64, data: SessionData, saved: nat, now: nat)
    requires saved <= now < saved + SESSION_TTL
    ensures Get(Saved(entries, sessionId, data, saved), sessionId, now, true) == Ok(Some(data))
  {
    ParseSerialize(data);
  }

  /** From its expiry second on, a saved record reads as absent. */
  lemma GetAfterExpiry(entries: map<string, Entry>, sessionId: U64, data: SessionData, saved: nat, now: nat)
    requires saved + SESSION_TTL <= now
    ensures Get(Saved(entries, sessionId, data, saved), sessionId, now, true) == Ok(None)
  {
  }

  /** After a removal the id reads as absent, or the read fails to connect. */
  lemma GetAfterRemove(entries: map<string, Entry>, sessionId: U64, now: nat, reachable: bool)
    ensures Get(Removed(entries, sessionId), sessionId, now, reachable)
      == if reachable then Ok(None) else Err(ConnectionFailed)
  {
  }

  /** Saving under one id leaves every other id's reading as it was. */
  lemma SaveIsolated(entries: map<string, Entry>, sessionId: U64, data: SessionData, saved: nat, other: U64, now: nat, reachable: bool)
    requires other != sessionId
    ensures Get(Saved(entries, sessionId, data, saved), other, now, reachable) == Get(entries, other, now, reachable)
  {
    if SessionKey(other) == SessionKey(sessionId) {
      SessionKeyInjective(other, sessionId);
    }
  }

  /** Removing one id leaves every other id's reading as it was. */
  lemma RemoveIsolated(entries: map<string, Entry>, sessionId: U64, other: U64, now: nat, reachable: bool)
    requires other != sessionId
    ensures Get(Removed(entries, sessionId), other, now, reachable) == Get(entries, other, now, reachable)
  {
    if SessionKey(other) == SessionKey(sessionId) {
      SessionKeyInjective(other, sessionId);
    }
  }

  /** `RedisSessionStore`; clones of it share one Redis server, so the model shares one object. */
  class RedisSessionStore {
    var entries: map<string, Entry>

    constructor ()
      ensures entries == map[]
    {
      entries := map[];
    }

    /** `save_session`: `SETEX session:{id} 86400 <serde_json text>`. */
    method SaveSession(sessionId: U64, data: SessionData, now: nat, reachable: bool) returns (r: Result<(), StoreError>)
      modifies this
      ensures r.Ok? == reachable
      ensures reachable ==> entries == Saved(old(entries), sessionId, data, now)
      ensures !reachable ==> r == Err(ConnectionFailed) && entries == old(entries)
    {
      if !reachable {
        return Err(ConnectionFailed);
      }
      entries := Saved(entries, sessionId, data, now);
      r := Ok(());
    }

    /** `get_session`: the stored record, `Ok(None)` when nothing is stored, or the error. */
    method GetSession(sessionId: U64, now: nat, reachable: bool) returns (r: Result<Option<SessionData>, StoreError>)
      ensures r == Get(entries, sessionId, now, reachable)
    {
      if !reachable {
        return Err(ConnectionFailed);
      }
      var key := SessionKey(sessionId);
      if key in entries && now < entries[key].expiresAt {
        var parsed := Parse(entries[key].value);
        r := if parsed.Some? then Ok(Some(parsed.value)) else Err(MalformedJson);
      } else {
        r := Ok(None);
      }
    }

    /** `remove_session`: `DEL session:{id}`; deleting a missing key succeeds. */
    method RemoveSession(sessionId: U64, reachable: bool) returns (r: Result<(), StoreError>)
      modifies this
      ensures r.Ok? == reachable
      ensures entries == if reachable then Removed(old(entries), sessionId) else old(entries)
    {
      if !reachable {
        return Err(ConnectionFailed);
      }
      entries := Removed(entries, sessionId);
      r := Ok(());
    }
  }
}
