/**
 * The bookkeeping of the WebSocket gateway (ic_websocket_gateway/src/main.rs): the
 * per-connection `GatewaySession` flags, the `GatewayServer` maps of close arguments and
 * canister pollers, and the polling nonce of `CanisterPoller::run_polling`.
 * CBOR decoding, signature verification and canister calls are inputs of the operations.
 */
module Gateway {
  import opened Wrappers
  import opened Numerals
  import opened SessionJson
  import SessionStore
  import CanisterMethods

  /** A session id; `u64` in the source (see README). A session handle is named by its id. */
  type SessionId = nat

  datatype FirstMessageFromClient = FirstMessageFromClient(clientCanisterId: seq<Byte>, sig: seq<Byte>)

  datatype ClientCanisterId = ClientCanisterId(clientId: U64, canisterId: string)

  /** A decoded first frame: the CBOR envelope and the CBOR content inside `client_canister_id`. */
  datatype Handshake = Handshake(message: FirstMessageFromClient, content: ClientCanisterId)

  /** The request a session posts to the server with `server_handle.call`. */
  datatype ConnectCanister = ConnectCanister(sessionId: SessionId, canisterId: string, canisterClientId: U64)

  /**
   * What the canister and the signature library answer while one frame is handled; a reply
   * is `None` where the update call itself fails.
   */
  datatype CanisterReplies = CanisterReplies(signatureValid: bool, openReply: Option<seq<Byte>>, messageReply: Option<seq<Byte>>)

  datatype FrameOutcome = Handled | Crashed

  /** The text sent back when the handshake signature does not verify. */
  const INVALID_SIGNATURE_TEXT: string := "{\"status\": \"error\", \"message\": \"Invalid signature\"}"

  /** `ed25519_compact::Signature::from_slice` accepts exactly this many bytes. */
  const SIGNATURE_LENGTH: nat := 64

  class GatewaySession {
    const id: SessionId
    const store: SessionStore.RedisSessionStore
    var canisterConnected: bool
    var clientId: Option<U64>
    var canisterId: Option<string>
    /** The texts sent to the client through `handle.text`. */
    var sentTexts: seq<string>
    /** The requests posted to the server with `server_handle.call`, oldest first. */
    var serverCalls: seq<ConnectCanister>

    /** A session knows its client and canister exactly when it is connected. */
    ghost predicate Valid()
      reads this
    {
      canisterConnected == clientId.Some? && canisterConnected == canisterId.Some?
    }

    /** The session `accept` creates. */
    constructor (id: SessionId, store: SessionStore.RedisSessionStore)
      ensures Valid()
      ensures this.id == id && this.store == store
      ensures !canisterConnected && clientId == None && canisterId == None
      ensures sentTexts == [] && serverCalls == []
    {
      this.id := id;
      this.store := store;
      canisterConnected := false;
      clientId := None;
      canisterId := None;
      sentTexts := [];
      serverCalls := [];
    }

    /**
     * `binary`: while not connected the frame is the handshake; otherwise it is relayed
     * to the canister's `ws_message` and the reply is sent back. A failed `ws_open` or
     * `ws_message` call panics the session, after whatever the handshake already changed.
     */
    method Binary(bytes: seq<Byte>, decode: seq<Byte> -> Option<Handshake>, replies: CanisterReplies, now: U64, storeReachable: bool)
      returns (outcome: FrameOutcome)
      requires Valid()
      modifies this, store
      ensures Valid()
      // a relayed message: the reply is sent back, or the failed call panics with nothing sent
      ensures old(canisterConnected) ==>
        && (outcome == Handled <==> replies.messageReply.Some?)
        && canisterConnected && clientId == old(clientId) && canisterId == old(canisterId)
        && sentTexts == old(sentTexts) + (if replies.messageReply.Some? then [CanisterMethods.WsMessage(replies.messageReply).value.value] else [])
        && serverCalls == old(serverCalls) && store.entries == old(store.entries)
      // a handshake that cannot be decoded, or whose signature has the wrong length, panics
      ensures !old(canisterConnected) && (decode(bytes).None? || |decode(bytes).value.message.sig| != SIGNATURE_LENGTH) ==>
        && outcome == Crashed
        && !canisterConnected && clientId == None && canisterId == None
        && sentTexts == old(sentTexts) && serverCalls == old(serverCalls) && store.entries == old(store.entries)
      // a handshake whose signature does not verify
      ensures !old(canisterConnected) && decode(bytes).Some? && |decode(bytes).value.message.sig| == SIGNATURE_LENGTH && !replies.signatureValid ==>
        && outcome == Handled
        && !canisterConnected && clientId == None && canisterId == None
        && sentTexts == old(sentTexts) + [INVALID_SIGNATURE_TEXT]
        && serverCalls == old(serverCalls) && store.entries == old(store.entries)
      // a handshake whose signature verifies: connected, saved and announced to the server
      // even when the `ws_open` call then fails and no reply reaches the client
      ensures !old(canisterConnected) && decode(bytes).Some? && |decode(bytes).value.message.sig| == SIGNATURE_LENGTH && replies.signatureValid ==>
        var c := decode(bytes).value.content;
        && (outcome == Handled <==> replies.openReply.Some?)
        && canisterConnected && clientId == Some(c.clientId) && canisterId == Some(c.canisterId)
        && store.entries == (if storeReachable
                             then SessionStore.Saved(old(store.entries), c.clientId, SessionData(c.clientId, c.canisterId, now), now)
                             else old(store.entries))
        && serverCalls == old(serverCalls) + [ConnectCanister(id, c.canisterId, c.clientId)]
        && sentTexts == old(sentTexts) + (if replies.openReply.Some? then [CanisterMethods.WsOpen(replies.openReply).value] else [])
    {
      if !canisterConnected {
        var decoded := decode(bytes);
        if decoded.None? || |decoded.value.message.sig| != SIGNATURE_LENGTH {
          return Crashed;
        }
        var m := decoded.value.message;
        var content := decoded.value.content;
        if replies.signatureValid {
          canisterConnected := true;
          clientId := Some(content.clientId);
          canisterId := Some(content.canisterId);
          var sessionData := SessionData(content.clientId, content.canisterId, now);
          // a failed save is only logged
          var _ := store.SaveSession(content.clientId, sessionData, now, storeReachable);
          serverCalls := serverCalls + [ConnectCanister(id, content.canisterId, content.clientId)];
          var response := CanisterMethods.WsOpen(replies.openReply);
          if response.None? {
            return Crashed;
          }
          sentTexts := sentTexts + [response.value];
        } else {
          sentTexts := sentTexts + [INVALID_SIGNATURE_TEXT];
        }
      } else {
        // `ws_message` never returns `Err`, so its error arm is never taken
        var response := CanisterMethods.WsMessage(replies.messageReply);
        if response.None? {
          return Crashed;
        }
        sentTexts := sentTexts + [response.value.value];
      }
      outcome := Handled;
    }
  }

  datatype EncodedMessage = EncodedMessage(clientId: U64, key: string, val: seq<Byte>)

  datatype CertMessages = CertMessages(messages: seq<EncodedMessage>, cert: seq<Byte>, tree: seq<Byte>)

  datatype CertMessage = CertMessage(key: string, val: seq<Byte>, cert: seq<Byte>, tree: seq<Byte>)

  /** A certified message handed to a session with `s.binary`. */
  datatype Delivery = Delivery(session: SessionId, message: CertMessage)

  /** How one polling round ends: with the nonce of the next request, or with a panic. */
  datatype PollResult = Continue(nonce: nat) | Panicked

  /** `key.split('_').last().unwrap()`: the text after the last underscore, or all of it. */
  function LastSegment(key: string): (r: string)
    ensures |r| <= |key|
    ensures forall i :: 0 <= i < |r| ==> r[i] != '_'
    ensures |r| < |key| ==> key[|key| - |r| - 1] == '_'
    decreases |key|
  {
    if key == [] then []
    else if key[|key| - 1] == '_' then []
    else LastSegment(key[..|key| - 1]) + [key[|key| - 1]]
  }

  /** The last segment is the tail of the key. */
  lemma {:induction false} LastSegmentIsSuffix(key: string)
    ensures LastSegment(key) == key[|key| - |LastSegment(key)|..]
    decreases |key|
  {
    if key != [] && key[|key| - 1] != '_' {
      var init := key[..|key| - 1];
      LastSegmentIsSuffix(init);
      assert key[|key| - |LastSegment(key)|..] == init[|init| - |LastSegment(init)|..] + [key[|key| - 1]];
    }
  }

  /** The key format `<prefix>_<n>` yields `n` as its last segment. */
  lemma {:induction false} LastSegmentOfSuffix(prefix: string, suffix: string)
    requires forall i :: 0 <= i < |suffix| ==> suffix[i] != '_'
    ensures LastSegment(prefix + "_" + suffix) == suffix
  {
    if suffix != [] {
      var key := prefix + "_" + suffix;
      assert key[..|key| - 1] == prefix + "_" + suffix[..|suffix| - 1];
      LastSegmentOfSuffix(prefix, suffix[..|suffix| - 1]);
      assert suffix[..|suffix| - 1] + [suffix[|suffix| - 1]] == suffix;
    }
  }

  /** The nonce after relaying a message with this key; `None` where `parse().unwrap()` panics. */
  function NextNonce(key: string): Option<nat> {
    match ParseU64(LastSegment(key))
    case None => None
    case Some(v) => Some(v + 1)
  }

  /**
   * A key `<prefix>_<segment>` whose `_`-free last segment `parse` reads as `n` moves the
   * nonce to `n + 1`; by `Numerals.ParseDigits` that takes in every digit string that fits
   * in a `u64`, with or without a leading `+` and leading zeros.
   */
  lemma NextNonceOfKey(prefix: string, segment: string, n: U64)
    requires forall i :: 0 <= i < |segment| ==> segment[i] != '_'
    requires ParseU64(segment) == Some(n)
    ensures NextNonce(prefix + "_" + segment) == Some(n + 1)
  {
    LastSegmentOfSuffix(prefix, segment);
    NextNonceOfSegment(prefix + "_" + segment, n);
  }

  lemma NextNonceOfSegment(key: string, n: U64)
    requires ParseU64(LastSegment(key)) == Some(n)
    ensures NextNonce(key) == Some(n + 1)
  {
  }

  /** The canonical numeral of any `u64`, as the canister writes it, moves the nonce past it. */
  lemma NextNonceOfNumeral(prefix: string, n: U64)
    ensures NextNonce(prefix + "_" + Decimal(n)) == Some(n + 1)
  {
    ParseDecimal(n);
    NoUnderscoreInDigits(Decimal(n));
    NextNonceOfKey(prefix, Decimal(n), n);
  }

  /** A zero-padded segment is read as its value: `gw_007` moves the nonce to 8. */
  lemma NextNonceOfPadded()
    ensures NextNonce("gw_007") == Some(8)
  {
    assert "gw_007" == "gw" + "_" + "007";
    assert DigitsValue("007") == 7 by {
      assert "007"[..2] == "00" && "00"[..1] == "0" && "0"[..0] == "";
    }
    ParseDigits("007");
    NoUnderscoreInDigits("007");
    NextNonceOfKey("gw", "007", 7);
  }

  /** A leading `+` is accepted: `gw_+7` moves the nonce to 8 as well. */
  lemma NextNonceOfSigned()
    ensures NextNonce("gw_+7") == Some(8)
  {
    assert "gw_+7" == "gw" + "_" + ("+" + "7");
    assert DigitsValue("7") == 7 by { assert "7"[..0] == ""; }
    ParseDigits("7");
    NoUnderscoreInSigned("7");
    NextNonceOfKey("gw", "+" + "7", 7);
  }

  lemma NoUnderscoreInDigits(digits: string)
    requires AllDigits(digits)
    ensures forall i :: 0 <= i < |digits| ==> digits[i] != '_'
  {
    forall i | 0 <= i < |digits|
      ensures digits[i] != '_'
    {
      assert IsDigit(digits[i]);
    }
  }

  lemma NoUnderscoreInSigned(digits: string)
    requires AllDigits(digits)
    ensures forall i :: 0 <= i < |"+" + digits| ==> ("+" + digits)[i] != '_'
  {
    var signed := "+" + digits;
    forall i | 0 <= i < |signed|
      ensures signed[i] != '_'
    {
      if i > 0 {
        assert signed[i] == digits[i - 1];
        assert IsDigit(digits[i - 1]);
      }
    }
  }

  /** What relaying one message sends: to its client's session when registered and alive. */
  function Deliver(m: EncodedMessage, clients: map<U64, SessionId>, alive: set<SessionId>, cert: seq<Byte>, tree: seq<Byte>): seq<Delivery> {
    if m.clientId in clients && clients[m.clientId] in alive
    then [Delivery(clients[m.clientId], CertMessage(m.key, m.val, cert, tree))]
    else []
  }

  /**
   * One pass of the `for` loop of `run_polling` over the messages of one
   * `ws_get_messages` reply, starting from `nonce`.
   */
  function Poll(nonce: nat, ms: seq<EncodedMessage>, clients: map<U64, SessionId>, alive: set<SessionId>, cert: seq<Byte>, tree: seq<Byte>): (PollResult, seq<Delivery>)
    decreases |ms|
  {
    if ms == [] then (Continue(nonce), [])
    else
      var sent := Deliver(ms[0], clients, alive, cert, tree);
      match NextNonce(ms[0].key)
      case None => (Panicked, sent)
      case Some(next) =>
        var rest := Poll(next, ms[1..], clients, alive, cert, tree);
        (rest.0, sent + rest.1)
  }

  /** When a round completes, the new nonce comes from the last message's key alone. */
  lemma {:induction false} PollNonceFromLastKey(nonce: nat, ms: seq<EncodedMessage>, clients: map<U64, SessionId>, alive: set<SessionId>, cert: seq<Byte>, tree: seq<Byte>)
    requires ms != []
    requires Poll(nonce, ms, clients, alive, cert, tree).0.Continue?
    ensures NextNonce(ms[|ms| - 1].key) == Some(Poll(nonce, ms, clients, alive, cert, tree).0.nonce)
    decreases |ms|
  {
    var next := NextNonce(ms[0].key).value;
    var rest := Poll(next, ms[1..], clients, alive, cert, tree);
    assert Poll(nonce, ms, clients, alive, cert, tree).0 == rest.0;
    if |ms| > 1 {
      PollNonceFromLastKey(next, ms[1..], clients, alive, cert, tree);
      assert ms[1..][|ms[1..]| - 1] == ms[|ms| - 1];
    } else {
      assert rest.0 == Continue(next);
    }
  }

  /** An empty reply keeps the nonce. */
  lemma PollEmpty(nonce: nat, clients: map<U64, SessionId>, alive: set<SessionId>, cert: seq<Byte>, tree: seq<Byte>)
    ensures Poll(nonce, [], clients, alive, cert, tree) == (Continue(nonce), [])
  {
  }

  /**
   * Every delivery goes to a live session registered in the client map and carries the
   * reply's certificate; messages for unregistered clients are sent nowhere. A corollary
   * of `PollDeliversProcessedPrefix`, proved here on its own by induction.
   */
  lemma {:induction false} PollDeliversToRegistered(nonce: nat, ms: seq<EncodedMessage>, clients: map<U64, SessionId>, alive: set<SessionId>, cert: seq<Byte>, tree: seq<Byte>)
    ensures var ds := Poll(nonce, ms, clients, alive, cert, tree).1;
      |ds| <= |ms| &&
      forall j :: 0 <= j < |ds| ==>
        ds[j].session in alive && ds[j].session in clients.Values && ds[j].message.cert == cert && ds[j].message.tree == tree
    ensures (forall i :: 0 <= i < |ms| ==> ms[i].clientId !in clients) ==> Poll(nonce, ms, clients, alive, cert, tree).1 == []
    decreases |ms|
  {
    if ms != [] {
      match NextNonce(ms[0].key)
      case None =>
      case Some(next) =>
        PollDeliversToRegistered(next, ms[1..], clients, alive, cert, tree);
        assert forall i :: 0 <= i < |ms[1..]| ==> ms[1..][i] == ms[i + 1];
    }
  }

  /** The deliveries of a run of messages, each handled on its own by `Deliver`, in order. */
  function DeliverAll(ms: seq<EncodedMessage>, clients: map<U64, SessionId>, alive: set<SessionId>, cert: seq<Byte>, tree: seq<Byte>): (ds: seq<Delivery>)
    ensures |ds| <= |ms|
    decreases |ms|
  {
    if ms == [] then [] else Deliver(ms[0], clients, alive, cert, tree) + DeliverAll(ms[1..], clients, alive, cert, tree)
  }

  /**
   * How many messages of a reply the `for` loop handles: all of them, or those up to and
   * including the first whose key's last segment `parse().unwrap()` panics on.
   */
  function ProcessedCount(ms: seq<EncodedMessage>): (k: nat)
    ensures k <= |ms| && (ms != [] ==> k > 0)
    ensures forall i :: 0 <= i < k - 1 ==> NextNonce(ms[i].key).Some?
    ensures k < |ms| ==> NextNonce(ms[k - 1].key).None?
    decreases |ms|
  {
    if ms == [] then 0
    else if NextNonce(ms[0].key).None? then 1
    else
      var k := 1 + ProcessedCount(ms[1..]);
      assert forall i :: 1 <= i < k - 1 ==> ms[i] == ms[1..][i - 1];
      k
  }

  /**
   * A round hands out exactly the deliveries of the messages it gets through, in the
   * reply's order, and panics exactly when the last of them has a key it cannot parse.
   */
  lemma {:induction false} PollDeliversProcessedPrefix(nonce: nat, ms: seq<EncodedMessage>, clients: map<U64, SessionId>, alive: set<SessionId>, cert: seq<Byte>, tree: seq<Byte>)
    ensures Poll(nonce, ms, clients, alive, cert, tree).1 == DeliverAll(ms[..ProcessedCount(ms)], clients, alive, cert, tree)
    ensures Poll(nonce, ms, clients, alive, cert, tree).0.Panicked? <==>
      ProcessedCount(ms) > 0 && NextNonce(ms[ProcessedCount(ms) - 1].key).None?
    decreases |ms|
  {
    if ms != [] {
      match NextNonce(ms[0].key)
      case None =>
        DeliverAllPrefixStep(ms, 0, clients, alive, cert, tree);
      case Some(next) =>
        var k := ProcessedCount(ms[1..]);
        PollDeliversProcessedPrefix(next, ms[1..], clients, alive, cert, tree);
        DeliverAllPrefixStep(ms, k, clients, alive, cert, tree);
    }
  }

  /** Taking one more message at the front of a prefix adds its deliveries at the front. */
  lemma DeliverAllPrefixStep(ms: seq<EncodedMessage>, k: nat, clients: map<U64, SessionId>, alive: set<SessionId>, cert: seq<Byte>, tree: seq<Byte>)
    requires k < |ms|
    ensures DeliverAll(ms[..1 + k], clients, alive, cert, tree) == Deliver(ms[0], clients, alive, cert, tree) + DeliverAll(ms[1..][..k], clients, alive, cert, tree)
    ensures k > 0 ==> ms[1..][k - 1] == ms[k]
  {
    var prefix := ms[..1 + k];
    assert prefix[0] == ms[0] && prefix[1..] == ms[1..][..k];
  }

  /** Deliveries of a concatenation are the concatenation of the deliveries. */
  lemma {:induction false} DeliverAllAppend(a: seq<EncodedMessage>, b: seq<EncodedMessage>, clients: map<U64, SessionId>, alive: set<SessionId>, cert: seq<Byte>, tree: seq<Byte>)
    ensures DeliverAll(a + b, clients, alive, cert, tree) == DeliverAll(a, clients, alive, cert, tree) + DeliverAll(b, clients, alive, cert, tree)
    decreases |a|
  {
    if a != [] {
      assert a + b != [] && (a + b)[0] == a[0] && (a + b)[1..] == a[1..] + b;
      DeliverAllAppend(a[1..], b, clients, alive, cert, tree);
      var d0 := Deliver(a[0], clients, alive, cert, tree);
      assert DeliverAll(a + b, clients, alive, cert, tree) == d0 + DeliverAll(a[1..] + b, clients, alive, cert, tree);
      assert DeliverAll(a, clients, alive, cert, tree) == d0 + DeliverAll(a[1..], clients, alive, cert, tree);
    } else {
      assert a + b == b;
    }
  }

  /**
   * A message for a client missing from the map, or whose session is no longer alive,
   * wherever it stands among the others, changes nothing of what is delivered.
   */
  lemma DeliverAllSkipsUnserved(before: seq<EncodedMessage>, m: EncodedMessage, after: seq<EncodedMessage>, clients: map<U64, SessionId>, alive: set<SessionId>, cert: seq<Byte>, tree: seq<Byte>)
    requires m.clientId !in clients || clients[m.clientId] !in alive
    ensures DeliverAll(before + [m] + after, clients, alive, cert, tree) == DeliverAll(before + after, clients, alive, cert, tree)
  {
    DeliverAllAppend(before + [m], after, clients, alive, cert, tree);
    DeliverAllAppend(before, [m], clients, alive, cert, tree);
    DeliverAllAppend(before, after, clients, alive, cert, tree);
    assert DeliverAll([m], clients, alive, cert, tree) == [] + DeliverAll([], clients, alive, cert, tree);
  }

  class CanisterPoller {
    const canisterId: string
    /** `canister_client_session_map`: client id to session handle. */
    var clients: map<U64, SessionId>
    /** Whether the task spawned by `run_polling` is running. */
    var polling: bool
    /**
     * Whether the map's `Mutex` is poisoned: a round panicked while it held the guard
     * taken for the message, which also ended the polling task.
     */
    var poisoned: bool

    ghost predicate Valid()
      reads this
    {
      poisoned ==> !polling
    }

    constructor (canisterId: string)
      ensures Valid()
      ensures this.canisterId == canisterId && clients == map[] && !polling && !poisoned
    {
      this.canisterId := canisterId;
      clients := map[];
      polling := false;
      poisoned := false;
    }

    /**
     * `add_session`: insert or overwrite the client's session. Locking a poisoned map
     * panics (`lock().unwrap()`), and then nothing is inserted.
     */
    method AddSession(canisterClientId: U64, session: SessionId) returns (panicked: bool)
      modifies this
      ensures panicked == poisoned
      ensures clients == if panicked then old(clients) else old(clients)[canisterClientId := session]
      ensures polling == old(polling) && poisoned == old(poisoned)
    {
      panicked := poisoned;
      if !panicked {
        clients := clients[canisterClientId := session];
      }
    }

    /**
     * `run_polling`: when `get_new_agent` fails it logs and returns, and no task is ever
     * spawned; otherwise the polling task starts.
     */
    method RunPolling(agentCreated: bool)
      requires Valid() && !poisoned
      modifies this
      ensures Valid()
      ensures polling == agentCreated && !poisoned && clients == old(clients)
    {
      polling := agentCreated;
    }

    /**
     * One round of the polling loop of `run_polling`, given the canister's reply and
     * the set of sessions whose `alive()` holds: relay each message in order, then set
     * the nonce from its key.
     */
    method PollMessages(nonce: nat, reply: CertMessages, alive: set<SessionId>) returns (result: PollResult, sent: seq<Delivery>)
      requires Valid() && polling
      modifies this
      ensures Valid() && clients == old(clients)
      ensures (result, sent) == Poll(nonce, reply.messages, clients, alive, reply.cert, reply.tree)
      // a panic ends the task with the map's guard held, which poisons the map
      ensures polling == !result.Panicked? && poisoned == result.Panicked?
    {
      var ms, cs, cert, tree := reply.messages, clients, reply.cert, reply.tree;
      var current := nonce;
      sent := [];
      var i := 0;
      assert ms[i..] == ms;
      while i < |ms|
        invariant 0 <= i <= |ms|
        invariant Poll(nonce, ms, cs, alive, cert, tree).0 == Poll(current, ms[i..], cs, alive, cert, tree).0
        invariant Poll(nonce, ms, cs, alive, cert, tree).1 == sent + Poll(current, ms[i..], cs, alive, cert, tree).1
      {
        var m := ms[i];
        assert ms[i..][0] == m && ms[i..][1..] == ms[i + 1..];
        var delivered := Deliver(m, cs, alive, cert, tree);
        sent := sent + delivered;
        var next := NextNonce(m.key);
        if next.None? {
          assert Poll(current, ms[i..], cs, alive, cert, tree) == (Panicked, delivered);
          polling, poisoned := false, true;
          return Panicked, sent;
        }
        ghost var rest := Poll(next.value, ms[i + 1..], cs, alive, cert, tree);
        assert Poll(current, ms[i..], cs, alive, cert, tree) == (rest.0, delivered + rest.1);
        current := next.value;
        i := i + 1;
      }
      assert ms[i..] == [];
      assert Poll(current, ms[i..], cs, alive, cert, tree) == (Continue(current), []);
      assert sent + [] == sent;
      result := Continue(current);
    }
  }

  class GatewayServer {
    var nextSessionId: SessionId
    var connectedCanisters: map<string, CanisterPoller>
    var closeArgs: map<SessionId, ClientCanisterId>
    /** The `ws_close` calls made to canisters, oldest first. */
    var closedClients: seq<ClientCanisterId>
    const store: SessionStore.RedisSessionStore
    /** The ids handed out by `accept`, in order. */
    ghost var issued: seq<SessionId>
    ghost var Repr: set<object>

    ghost predicate Valid()
      reads this, Repr
    {
      && this in Repr
      && (forall k :: k in connectedCanisters ==> connectedCanisters[k] in Repr && connectedCanisters[k].canisterId == k && connectedCanisters[k].Valid())
      && (forall i, j :: 0 <= i < j < |issued| ==> issued[i] < issued[j])
      && (forall i :: 0 <= i < |issued| ==> issued[i] < nextSessionId)
    }

    /** The client map of each canister's poller. */
    ghost function Clients(): map<string, map<U64, SessionId>>
      reads this, Repr
      requires Valid()
    {
      map k | k in connectedCanisters :: connectedCanisters[k].clients
    }

    /** The server `main` creates. */
    constructor (store: SessionStore.RedisSessionStore)
      ensures Valid() && fresh(Repr)
      ensures nextSessionId == 0 && connectedCanisters == map[] && closeArgs == map[]
      ensures closedClients == [] && issued == [] && this.store == store
    {
      nextSessionId := 0;
      connectedCanisters := map[];
      closeArgs := map[];
      closedClients := [];
      this.store := store;
      issued := [];
      Repr := {this};
    }

    /** `accept`: a fresh session numbered by the counter, which moves on by one. */
    method Accept() returns (session: GatewaySession)
      requires Valid()
      modifies this
      ensures Valid() && Repr == old(Repr)
      ensures fresh(session) && session.Valid() && session.store == store
      ensures session.id == old(nextSessionId) && nextSessionId == old(nextSessionId) + 1
      ensures forall i :: 0 <= i < |old(issued)| ==> old(issued)[i] < session.id
      ensures issued == old(issued) + [session.id]
      ensures !session.canisterConnected && session.clientId == None && session.canisterId == None
      ensures session.sentTexts == [] && session.serverCalls == []
      ensures connectedCanisters == old(connectedCanisters) && closeArgs == old(closeArgs)
      ensures closedClients == old(closedClients) && Clients() == old(Clients())
    {
      var id := nextSessionId;
      nextSessionId := nextSessionId + 1;
      session := new GatewaySession(id, store);
      issued := issued + [id];
    }

    /**
     * `disconnected`: take the session's close arguments out of the map and, when there
     * were some, remove the client's stored session and call `ws_close`.
     */
    method Disconnected(id: SessionId, storeReachable: bool)
      requires Valid()
      modifies this, store
      ensures Valid() && Repr == old(Repr)
      ensures closeArgs == old(closeArgs) - {id}
      ensures id !in old(closeArgs) ==> store.entries == old(store.entries) && closedClients == old(closedClients)
      ensures id in old(closeArgs) ==>
        && store.entries == (if storeReachable then SessionStore.Removed(old(store.entries), old(closeArgs)[id].clientId) else old(store.entries))
        && closedClients == old(closedClients) + [old(closeArgs)[id]]
      ensures nextSessionId == old(nextSessionId) && issued == old(issued)
      ensures connectedCanisters == old(connectedCanisters) && Clients() == old(Clients())
    {
      if id in closeArgs {
        var args := closeArgs[id];
        closeArgs := closeArgs - {id};
        // a failed removal is only logged
        var _ := store.RemoveSession(args.clientId, storeReachable);
        closedClients := closedClients + [args];
      }
    }

    /**
     * `call` with a `ConnectCanister` request: record the close arguments, then add the
     * session to the canister's poller. A poller that is absent is created, given the
     * session, started (`agentCreated` says whether `get_new_agent` succeeds in
     * `run_polling`) and registered, running or not. Adding to a poller whose map a
     * panicked round poisoned panics, after the close arguments were recorded.
     */
    method Call(request: ConnectCanister, agentCreated: bool) returns (panicked: bool)
      requires Valid()
      modifies Repr
      ensures Valid() && fresh(Repr - old(Repr))
      ensures closeArgs == old(closeArgs)[request.sessionId := ClientCanisterId(request.canisterClientId, request.canisterId)]
      ensures panicked <==> request.canisterId in old(connectedCanisters) && old(connectedCanisters[request.canisterId].poisoned)
      ensures connectedCanisters.Keys == old(connectedCanisters).Keys + {request.canisterId}
      ensures forall k :: k in old(connectedCanisters) ==> connectedCanisters[k] == old(connectedCanisters)[k]
      ensures connectedCanisters[request.canisterId].clients ==
        if panicked then old(connectedCanisters[request.canisterId].clients)
        else (if request.canisterId in old(connectedCanisters) then old(connectedCanisters[request.canisterId].clients) else map[])
          [request.canisterClientId := request.sessionId]
      // a new poller polls exactly when its agent could be created
      ensures request.canisterId !in old(connectedCanisters) ==>
        connectedCanisters[request.canisterId].polling == agentCreated && !connectedCanisters[request.canisterId].poisoned
      ensures forall k :: k in old(connectedCanisters) ==>
        connectedCanisters[k].polling == old(connectedCanisters[k].polling) && connectedCanisters[k].poisoned == old(connectedCanisters[k].poisoned)
      ensures forall k :: k in old(connectedCanisters) && k != request.canisterId ==>
        connectedCanisters[k].clients == old(connectedCanisters[k].clients)
      ensures nextSessionId == old(nextSessionId) && issued == old(issued) && closedClients == old(closedClients)
    {
      closeArgs := closeArgs[request.sessionId := ClientCanisterId(request.canisterClientId, request.canisterId)];
      if request.canisterId in connectedCanisters {
        var poller := connectedCanisters[request.canisterId];
        panicked := poller.AddSession(request.canisterClientId, request.sessionId);
      } else {
        var poller := new CanisterPoller(request.canisterId);
        panicked := poller.AddSession(request.canisterClientId, request.sessionId);
        poller.RunPolling(agentCreated);
        connectedCanisters := connectedCanisters[request.canisterId := poller];
        Repr := Repr + {poller};
      }
    }
  }
}
