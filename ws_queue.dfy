/**
 * The outbound message queue of src/frontend/src/utils/ws.js: messages sent while the
 * socket is closed are buffered and flushed, in order, when it opens.
 */
module WsQueue {
  /** The values handed to `sendMessage` and `ws.send`: a string, or an object `{ message }`. */
  datatype Message = Text(text: string) | Wrapped(message: Message)

  /** Each message put into a `{ message }` object. */
  function WrapAll(ms: seq<Message>): (r: seq<Message>)
    ensures |r| == |ms|
    ensures forall i :: 0 <= i < |ms| ==> r[i] == Wrapped(ms[i])
  {
    if ms == [] then [] else [Wrapped(ms[0])] + WrapAll(ms[1..])
  }

  lemma {:induction false} WrapAllAppend(a: seq<Message>, b: seq<Message>)
    ensures WrapAll(a + b) == WrapAll(a) + WrapAll(b)
  {
    assert |WrapAll(a + b)| == |WrapAll(a) + WrapAll(b)|;
    forall i | 0 <= i < |a + b|
      ensures WrapAll(a + b)[i] == (WrapAll(a) + WrapAll(b))[i]
    {
      if i < |a| {
        assert (a + b)[i] == a[i];
      } else {
        assert (a + b)[i] == b[i - |a|];
      }
    }
  }

  /** The module state of ws.js around the `IcWebSocket` instance. */
  class OutboundSocket {
    var isConnected: bool
    var messageQueue: seq<Message>
    /** The values passed to `ws.send`, oldest first. */
    var sent: seq<Message>

    /** Everything queued is a `{ message }` object. */
    ghost predicate QueuedWrapped()
      reads this
    {
      forall i :: 0 <= i < |messageQueue| ==> messageQueue[i].Wrapped?
    }

    /** Besides, nothing waits while the socket is open. */
    ghost predicate Valid()
      reads this
    {
      QueuedWrapped() && (isConnected ==> messageQueue == [])
    }

    constructor ()
      ensures Valid()
      ensures !isConnected && messageQueue == [] && sent == []
    {
      isConnected := false;
      messageQueue := [];
      sent := [];
    }

    /** `sendMessage`: send `{ message }` now when connected, or queue it. */
    method SendMessage(message: Message)
      requires QueuedWrapped()
      modifies this
      ensures QueuedWrapped() && (old(Valid()) ==> Valid())
      ensures isConnected == old(isConnected)
      ensures old(isConnected) ==> sent == old(sent) + [Wrapped(message)] && messageQueue == old(messageQueue)
      ensures !old(isConnected) ==> messageQueue == old(messageQueue) + [Wrapped(message)] && sent == old(sent)
    {
      if isConnected {
        sent := sent + [Wrapped(message)];
      } else {
        messageQueue := messageQueue + [Wrapped(message)];
      }
    }

    /**
     * `ws.onopen`: mark the socket open, then pass each queued entry, front first,
     * back through `SendMessage`, which wraps it once more.
     */
    method OnOpen()
      requires Valid()
      modifies this
      ensures Valid()
      ensures isConnected && messageQueue == []
      ensures sent == old(sent) + WrapAll(old(messageQueue))
    {
      isConnected := true;
      ghost var queued := messageQueue;
      ghost var k := 0;
      while |messageQueue| > 0
        invariant 0 <= k <= |queued| && messageQueue == queued[k..]
        invariant QueuedWrapped() && isConnected
        invariant sent == old(sent) + WrapAll(queued[..k])
        decreases |messageQueue|
      {
        var head := messageQueue[0];
        assert queued[..k + 1] == queued[..k] + [head];
        WrapAllAppend(queued[..k], [head]);
        messageQueue := messageQueue[1..];
        SendMessage(head);
        k := k + 1;
      }
      assert queued[..k] == queued;
    }

    /** `ws.onclose`: mark the socket closed; the queue stays as it is. */
    method OnClose()
      requires Valid()
      modifies this
      ensures Valid()
      ensures !isConnected && messageQueue == old(messageQueue) && sent == old(sent)
    {
      isConnected := false;
    }
  }

  /** Closing, sending `texts` and reopening delivers them in order, each wrapped twice. */
  method ReconnectScenario(socket: OutboundSocket, texts: seq<string>)
    requires socket.Valid()
    modifies socket
    ensures socket.Valid() && socket.isConnected && socket.messageQueue == []
    ensures |socket.sent| == |old(socket.sent)| + |old(socket.messageQueue)| + |texts|
    ensures socket.sent[..|old(socket.sent)|] == old(socket.sent)
    ensures forall i :: 0 <= i < |texts| ==>
      socket.sent[|old(socket.sent)| + |old(socket.messageQueue)| + i] == Wrapped(Wrapped(Text(texts[i])))
  {
    socket.OnClose();
    var i := 0;
    while i < |texts|
      invariant 0 <= i <= |texts|
      invariant socket.Valid() && !socket.isConnected && socket.sent == old(socket.sent)
      invariant |socket.messageQueue| == |old(socket.messageQueue)| + i
      invariant forall j :: 0 <= j < i ==> socket.messageQueue[|old(socket.messageQueue)| + j] == Wrapped(Text(texts[j]))
    {
      socket.SendMessage(Text(texts[i]));
      i := i + 1;
    }
    ghost var queued := socket.messageQueue;
    socket.OnOpen();
    assert socket.sent == old(socket.sent) + WrapAll(queued);
  }
}
