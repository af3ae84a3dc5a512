/** The table of outstanding requests, keyed by message type. Each request is
    a single-assignment future; the table maps a message type to the one
    future a reply of that type will complete. `futures` keeps every future
    ever handed out, so that an entry dropped from the table is still there to
    be looked at. */
module PendingTable {
  import opened JsonValues

  type FutureId = nat

  /** A `CompletableDeferred`: not yet completed, or completed once with a
      value. */
  datatype FutureState = Unresolved | Resolved(value: Json)

  datatype Table = Table(
    pending: map<string, FutureId>,
    futures: map<FutureId, FutureState>,
    next: FutureId)  // the identity the next new future gets

  /** Every handed-out future is older than `next`; every pending entry names
      a handed-out future that is still unresolved; no two message types share
      a future. */
  ghost predicate WellFormed(tb: Table) {
    && (forall f :: f in tb.futures ==> f < tb.next)
    && (forall t :: t in tb.pending ==> tb.pending[t] in tb.futures && tb.futures[tb.pending[t]].Unresolved?)
    && (forall t, u :: t in tb.pending && u in tb.pending && t != u ==> tb.pending[t] != tb.pending[u])
  }

  const Empty := Table(map[], map[], 0)

  /** A future nobody can complete any more: unresolved, and no longer in the
      table. */
  predicate Orphaned(tb: Table, f: FutureId) {
    f in tb.futures && tb.futures[f].Unresolved? && f !in tb.pending.Values
  }

  /** `pendingResponses[messageType] = CompletableDeferred()`: a fresh
      unresolved future under `messageType`, replacing whatever was there. */
  function Register(tb: Table, messageType: string): (r: Table)
    requires WellFormed(tb)
    ensures WellFormed(r)
    ensures tb.next !in tb.futures && r.next == tb.next + 1
    ensures r.pending == tb.pending[messageType := tb.next]
    ensures r.futures == tb.futures[tb.next := Unresolved]
    ensures messageType in tb.pending ==> Orphaned(r, tb.pending[messageType])
    ensures forall f :: Orphaned(tb, f) ==> Orphaned(r, f)
  {
    RegisterKeepsShape(tb, messageType);
    Table(tb.pending[messageType := tb.next], tb.futures[tb.next := Unresolved], tb.next + 1)
  }

  lemma RegisterKeepsShape(tb: Table, messageType: string)
    requires WellFormed(tb)
    ensures var r := Table(tb.pending[messageType := tb.next], tb.futures[tb.next := Unresolved], tb.next + 1);
      && WellFormed(r)
      && (messageType in tb.pending ==> Orphaned(r, tb.pending[messageType]))
      && (forall f :: Orphaned(tb, f) ==> Orphaned(r, f))
  {
    var r := Table(tb.pending[messageType := tb.next], tb.futures[tb.next := Unresolved], tb.next + 1);
    assert forall t :: t in tb.pending ==> tb.pending[t] < tb.next;
    if messageType in tb.pending {
      var oldF := tb.pending[messageType];
      forall t | t in r.pending ensures r.pending[t] != oldF {
        if t != messageType {
          assert tb.pending[t] != oldF;
        }
      }
    }
  }

  /** Lines completing a received message: the future under its type, if any,
      is completed with the whole message and the entry is removed. Nothing
      else changes. */
  function Settle(tb: Table, messageType: string, message: Json): (r: Table)
    requires WellFormed(tb)
    ensures WellFormed(r)
    ensures r.pending == tb.pending - {messageType} && r.next == tb.next
    ensures r.futures.Keys == tb.futures.Keys
    ensures messageType in tb.pending ==> r.futures[tb.pending[messageType]] == Resolved(message)
    ensures forall f :: f in tb.futures && f !in tb.pending.Values ==> r.futures[f] == tb.futures[f]
    ensures forall t :: t in tb.pending && t != messageType ==> r.futures[tb.pending[t]] == Unresolved
  {
    if messageType in tb.pending then
      var f := tb.pending[messageType];
      var r := Table(tb.pending - {messageType}, tb.futures[f := Resolved(message)], tb.next);
      assert forall t :: t in tb.pending && t != messageType ==> tb.pending[t] != f;
      r
    else
      tb
  }

  /** What happens to the table, step by step: requests and received messages
      that reach the completion step with a non-null type. */
  datatype Event = Request(messageType: string) | Receive(messageType: string, message: Json)

  function Step(tb: Table, e: Event): (r: Table)
    requires WellFormed(tb)
    ensures WellFormed(r)
  {
    match e
    case Request(t) => Register(tb, t)
    case Receive(t, m) => Settle(tb, t, m)
  }

  function Run(tb: Table, events: seq<Event>): (r: Table)
    requires WellFormed(tb)
    ensures WellFormed(r)
    decreases |events|
  {
    if events == [] then tb else Run(Step(tb, events[0]), events[1..])
  }

  /** A reply completes exactly the matching future: the one under its own
      type, with the whole message; every other entry stays pending and
      unresolved. */
  lemma ReplyCompletesMatching(tb: Table, t: string, message: Json)
    requires WellFormed(tb) && t in tb.pending
    ensures var r := Settle(tb, t, message);
      && r.futures[tb.pending[t]] == Resolved(message)
      && t !in r.pending
      && forall u :: u in tb.pending && u != t ==> u in r.pending && r.futures[r.pending[u]] == Unresolved
  {
  }

  /** A reply whose type has no entry is dropped: the table is unchanged. */
  lemma UnmatchedReplyDropped(tb: Table, t: string, message: Json)
    requires WellFormed(tb) && t !in tb.pending
    ensures Settle(tb, t, message) == tb
  {
  }

  /** A request followed by a reply of the same type resolves that request's
      future with the reply as received. */
  lemma RequestThenReply(tb: Table, t: string, message: Json)
    requires WellFormed(tb)
    ensures var r := Run(tb, [Request(t), Receive(t, message)]);
      tb.next in r.futures && r.futures[tb.next] == Resolved(message)
  {
    var r := Register(tb, t);
    assert Run(tb, [Request(t), Receive(t, message)]) == Run(r, [Receive(t, message)]);
    assert Run(r, [Receive(t, message)]) == Settle(r, t, message);
  }

  /** An orphaned future stays orphaned, whatever requests and replies follow:
      it is never completed. */
  lemma {:induction false} OrphanedForever(tb: Table, events: seq<Event>, f: FutureId)
    requires WellFormed(tb) && Orphaned(tb, f)
    ensures Orphaned(Run(tb, events), f)
    decreases |events|
  {
    if events != [] {
      var s := Step(tb, events[0]);
      assert Orphaned(s, f);
      OrphanedForever(s, events[1..], f);
    }
  }

  /** A second request of a type still pending orphans the first for ever. */
  lemma {:induction false} SecondRequestOrphansFirst(tb: Table, t: string, later: seq<Event>)
    requires WellFormed(tb)
    ensures var r := Run(Register(tb, t), [Request(t)] + later);
      tb.next in r.futures && r.futures[tb.next] == Unresolved
  {
    var first := Register(tb, t);
    var second := Register(first, t);
    assert Orphaned(second, tb.next);
    assert Run(first, [Request(t)] + later) == Run(second, later) by {
      assert ([Request(t)] + later)[1..] == later;
    }
    OrphanedForever(second, later, tb.next);
  }
}
