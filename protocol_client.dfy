/** `IdeProtocolClient`: the object both copies build around one socket. It
    keeps the table of requests awaiting a reply, the list of failure
    listeners and the session id; the socket itself is the `outbox` of frames
    sent, in order, and the calls it makes into the editor and the web view
    are the `effects` log. */
module ProtocolClient {
  import opened JsonValues
  import opened PendingTable
  import opened Dispatch
  import opened TextSelection

  /** The identity of a registered `WebSocketEventListener`. */
  type ListenerId = nat

  /** `listener.onErrorOccurred(error)`. */
  datatype Notice = ErrorOccurred(listener: ListenerId, error: string)

  const SessionRequest := "getSessionId"
  const WebviewEvent := "highlightedCode"

  /** The type under which a text selection is pushed to the server. */
  function PushType(edition: Edition): string {
    match edition
    case Continuedev => "highlightedCodePush"
    case Bishwenduk029 => "highlightedCode"
  }

  /** The selection strategy each copy ships as its default. */
  function DefaultStrategy(edition: Edition): Selection -> map<string, Json> {
    match edition
    case Continuedev => ContinuedevPayload
    case Bishwenduk029 => BishwendukPayload
  }

  /** `(resp as? Map)?.get("data") as? Map)?.get("sessionId")`. */
  function SessionField(reply: Json): Option<Json> {
    if reply.JObj? && DataKey in reply.fields && reply.fields[DataKey].JObj?
       && "sessionId" in reply.fields[DataKey].fields
    then Some(reply.fields[DataKey].fields["sessionId"])
    else None
  }

  /** The session id taken from a reply: Kotlin's `toString` of the
      `data.sessionId` field, which is the text `"null"` when the field, or
      `data` itself, is missing. `show` renders the values whose `toString`
      is the JVM's (numbers, lists, maps). */
  function SessionIdOf(reply: Json, show: Json -> string): (r: string)
    ensures SessionField(reply).None? ==> r == "null"
    ensures SessionField(reply) == Some(JNull) ==> r == "null"
    ensures forall s :: SessionField(reply) == Some(JStr(s)) ==> r == s
    ensures forall b :: SessionField(reply) == Some(JBool(b)) ==> r == (if b then "true" else "false")
  {
    match SessionField(reply)
    case None => "null"
    case Some(JNull) => "null"
    case Some(JStr(s)) => s
    case Some(JBool(b)) => if b then "true" else "false"
    case Some(v) => show(v)
  }

  /** One notice per registered listener, in registration order. This is the
      specification the loop of `IdeProtocolClient.OnFailure` is proved
      against. */
  function Notices(listeners: seq<ListenerId>, error: string): (r: seq<Notice>)
    ensures |r| == |listeners|
    ensures forall k :: 0 <= k < |r| ==> r[k] == ErrorOccurred(listeners[k], error)
  {
    seq(|listeners|, k requires 0 <= k < |listeners| => ErrorOccurred(listeners[k], error))
  }

  function Replies(r: Reaction): seq<Json>
    requires r.Handled?
  {
    if r.reply.Some? then [r.reply.value] else []
  }

  class IdeProtocolClient {
    const edition: Edition
    const reading: Reading  // how the continuedev `showDiff` handler reads its step index
    const workspacePath: string
    const strategy: Selection -> map<string, Json>

    var outbox: seq<Json>           // frames sent, oldest first
    var effects: seq<Effect>        // calls into the editor and the web view
    var listeners: seq<ListenerId>  // `eventListeners`
    var notified: seq<Notice>       // calls of the listeners
    var sessionId: Option<string>

    var pending: map<string, FutureId>        // `pendingResponses`
    var futures: map<FutureId, FutureState>   // every future handed out
    var nextFuture: FutureId

    ghost function Tab(): Table
      reads this
    {
      Table(pending, futures, nextFuture)
    }

    ghost predicate Valid()
      reads this
    {
      WellFormed(Tab())
    }

    /** The dispatch table of this copy, applied to a received message. */
    function ReactionTo(ide: Ide, message: map<string, Json>): Reaction {
      React(edition, reading, workspacePath, ide, message)
    }

    constructor (edition: Edition, reading: Reading, workspacePath: string, strategy: Selection -> map<string, Json>)
      ensures Valid()
      ensures this.edition == edition && this.reading == reading
      ensures this.workspacePath == workspacePath && this.strategy == strategy
      ensures outbox == [] && effects == [] && listeners == [] && notified == [] && sessionId == None
      ensures Tab() == Empty
    {
      this.edition := edition;
      this.reading := reading;
      this.workspacePath := workspacePath;
      this.strategy := strategy;
      outbox, effects, listeners, notified, sessionId := [], [], [], [], None;
      pending, futures, nextFuture := map[], map[], 0;
    }

    /** `sendMessage`: one frame `{messageType, data}`. */
    method SendMessage(messageType: string, data: map<string, Json>)
      modifies this`outbox
      ensures outbox == old(outbox) + [Frame(messageType, JObj(data))]
    {
      outbox := outbox + [Frame(messageType, JObj(data))];
    }

    /** `sendAndReceive`: registers a fresh unresolved future under the type,
        replacing (and so orphaning) any earlier one, then sends one frame. */
    method SendAndReceive(messageType: string, data: map<string, Json>) returns (f: FutureId)
      requires Valid()
      modifies this`pending, this`futures, this`nextFuture, this`outbox
      ensures Valid()
      ensures Tab() == Register(old(Tab()), messageType) && f == old(nextFuture)
      ensures f !in old(futures) && pending[messageType] == f && futures[f] == Unresolved
      ensures outbox == old(outbox) + [Frame(messageType, JObj(data))]
      ensures messageType in old(pending) ==> Orphaned(Tab(), old(pending[messageType]))
      ensures forall g :: Orphaned(old(Tab()), g) ==> Orphaned(Tab(), g)
    {
      ghost var before := Tab();
      f := nextFuture;
      pending := pending[messageType := f];
      futures := futures[f := Unresolved];
      nextFuture := nextFuture + 1;
      assert Tab() == Register(before, messageType);
      SendMessage(messageType, data);
    }

    /** `onMessage`: runs the dispatch table, then, for a non-null type,
        completes the future under that type with the whole message and
        removes the entry. A message whose handler aborts changes nothing. */
    method OnMessage(ide: Ide, message: map<string, Json>)
      requires Valid()
      modifies this`pending, this`futures, this`outbox, this`effects
      ensures Valid()
      ensures ReactionTo(ide, message).Aborted? ==>
        outbox == old(outbox) && effects == old(effects) && Tab() == old(Tab())
      ensures ReactionTo(ide, message).Handled? ==>
        && outbox == old(outbox) + Replies(ReactionTo(ide, message))
        && effects == old(effects) + ReactionTo(ide, message).effects
        && Tab() == (match MessageType(message)
                     case Some(t) => Settle(old(Tab()), t, JObj(message))
                     case None => old(Tab()))
      ensures forall g :: Orphaned(old(Tab()), g) ==> Orphaned(Tab(), g)
    {
      var r := ReactionTo(ide, message);
      if r.Handled? {
        outbox := outbox + Replies(r);
        effects := effects + r.effects;
        var t := MessageType(message);
        if t.Some? {
          ghost var before := Tab();
          if t.value in pending {
            futures := futures[pending[t.value] := Resolved(JObj(message))];
          }
          pending := pending - {t.value};
          assert Tab() == Settle(before, t.value, JObj(message));
        }
      }
    }

    /** `addEventListener`. */
    method AddEventListener(listener: ListenerId)
      modifies this`listeners
      ensures listeners == old(listeners) + [listener]
    {
      listeners := listeners + [listener];
    }

    /** `onFailure`: every registered listener is told, once, in order; no
        pending request is completed. */
    method OnFailure(error: string)
      modifies this`notified
      ensures notified == old(notified) + Notices(listeners, error)
    {
      var i := 0;
      while i < |listeners|
        invariant 0 <= i <= |listeners|
        invariant notified == old(notified) + Notices(listeners[..i], error)
      {
        assert Notices(listeners[..i + 1], error) == Notices(listeners[..i], error) + [ErrorOccurred(listeners[i], error)];
        notified := notified + [ErrorOccurred(listeners[i], error)];
        i := i + 1;
      }
      assert listeners[..i] == listeners;
    }

    /** `onTextSelected`: the strategy's payload is pushed to the server and
        the identical payload is dispatched to the web view. */
    method OnTextSelected(sel: Selection)
      modifies this`outbox, this`effects
      ensures outbox == old(outbox) + [Frame(PushType(edition), JObj(strategy(sel)))]
      ensures effects == old(effects) + [Webview(WebviewEvent, JObj(strategy(sel)))]
    {
      var payload := strategy(sel);
      SendMessage(PushType(edition), payload);
      effects := effects + [Webview(WebviewEvent, JObj(payload))];
    }

    /** The request half of `getSessionIdAsync`: `sendAndReceive` of an empty
        `getSessionId` request. */
    method RequestSessionId() returns (f: FutureId)
      requires Valid()
      modifies this`pending, this`futures, this`nextFuture, this`outbox
      ensures Valid()
      ensures Tab() == Register(old(Tab()), SessionRequest) && f == old(nextFuture)
      ensures outbox == old(outbox) + [Frame(SessionRequest, JObj(map[]))]
    {
      f := SendAndReceive(SessionRequest, map[]);
    }

    /** The continuation of `getSessionIdAsync`, which runs once the awaited
        future has been completed: the session id is taken from the reply. */
    method AdoptSessionId(f: FutureId, show: Json -> string) returns (sid: string)
      requires f in futures && futures[f].Resolved?
      modifies this`sessionId
      ensures sid == SessionIdOf(futures[f].value, show) && sessionId == Some(sid)
    {
      sid := SessionIdOf(futures[f].value, show);
      sessionId := Some(sid);
    }
  }

  /** Two requests of one type, then a reply of that type: the reply completes
      the second request with the whole message, and the first is never
      completed. */
  method SecondRequestOrphaned(edition: Edition, reading: Reading, workspacePath: string, ide: Ide, t: string,
                               first: map<string, Json>, second: map<string, Json>, reply: map<string, Json>)
    returns (firstState: FutureState, secondState: FutureState)
    requires MessageType(reply) == Some(t)
    requires React(edition, reading, workspacePath, ide, reply).Handled?
    ensures firstState == Unresolved
    ensures secondState == Resolved(JObj(reply))
  {
    var c := new IdeProtocolClient(edition, reading, workspacePath, DefaultStrategy(edition));
    var f1 := c.SendAndReceive(t, first);
    var f2 := c.SendAndReceive(t, second);
    c.OnMessage(ide, reply);
    firstState, secondState := c.futures[f1], c.futures[f2];
  }

  /** A fresh client asks for a session id with one request, and a reply
      carrying `sessionId` sets it. */
  method SessionHandshake(edition: Edition, reading: Reading, workspacePath: string, ide: Ide, id: string, show: Json -> string)
    returns (sent: seq<Json>, stored: Option<string>)
    ensures sent == [Frame(SessionRequest, JObj(map[]))]
    ensures stored == Some(id)
  {
    var c := new IdeProtocolClient(edition, reading, workspacePath, DefaultStrategy(edition));
    var f := c.RequestSessionId();
    var reply := map[MessageTypeKey := JStr(SessionRequest), DataKey := JObj(map["sessionId" := JStr(id)])];
    assert MessageType(reply) == Some(SessionRequest);
    c.OnMessage(ide, reply);
    var _ := c.AdoptSessionId(f, show);
    sent, stored := c.outbox, c.sessionId;
  }

  /** As written, the server's `showDiff` push never completes a pending
      `showDiff` request: the handler's cast fails before the completion step. */
  method ShowDiffLeftPending(workspacePath: string, ide: Ide, request: map<string, Json>, push: map<string, Json>)
    returns (state: FutureState)
    requires FromParser(JObj(push)) && MessageType(push) == Some("showDiff")
    ensures state == Unresolved
  {
    var c := new IdeProtocolClient(Continuedev, AsWritten, workspacePath, DefaultStrategy(Continuedev));
    var f := c.SendAndReceive("showDiff", request);
    ShowDiffAsWrittenAborts(workspacePath, ide, push);
    c.OnMessage(ide, push);
    state := c.futures[f];
  }

  /** Under the corrected reading, the same push shows the diff and completes
      the pending request with the whole message. */
  method ShowDiffCompletes(workspacePath: string, ide: Ide, request: map<string, Json>, push: map<string, Json>)
    returns (state: FutureState, shown: seq<Effect>)
    requires MessageType(push) == Some("showDiff")
    requires DataObject(push).Some? && ShowDiffArgs(DataObject(push).value).Some?
    ensures state == Resolved(JObj(push))
    ensures shown == [ShowDiffArgs(DataObject(push).value).value]
  {
    var c := new IdeProtocolClient(Continuedev, Corrected, workspacePath, DefaultStrategy(Continuedev));
    var f := c.SendAndReceive("showDiff", request);
    ShowDiffCorrectedShows(workspacePath, ide, push);
    c.OnMessage(ide, push);
    state, shown := c.futures[f], c.effects;
  }
}
