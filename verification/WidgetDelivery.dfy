/**
 What becomes of the messages the widget hands to its sockets. Socket.IO sends at once over a connected socket,
 buffers in one that has not connected yet, and drops the buffer of one that is disconnected for good.
 */
module WidgetDelivery {
  import opened Wrappers
  import opened WidgetModel
  import opened WidgetInvariants

  /**
   What became of the emissions: `out` over a connected socket, `buffered` in a live socket that has not
   connected yet, `lost` with a socket that never will. `up` says whether the live socket is connected.
   */
  datatype Wire = Wire(up: bool, out: seq<nat>, buffered: seq<nat>, lost: seq<nat>)

  function NewMessages(before: nat, emitted: seq<Emission>): seq<nat> {
    if |emitted| <= before then []
    else NewMessages(before, emitted[..|emitted| - 1]) + [emitted[|emitted| - 1].message]
  }

  /** The messages this step hands to the socket. */
  function Handed(s: State, e: Event): seq<nat>
    requires Enabled(s, e)
  {
    NewMessages(|s.mail.emitted|, NextMail(s.link, s.mail, e).emitted)
  }

  /** The step tears the socket down, gives it up, or opens another. */
  predicate SocketChanges(s: State, e: Event)
    requires Enabled(s, e)
  {
    Next(s, e).link.live != s.link.live
  }

  /** A connecting socket sends what it buffered; a socket that goes takes its buffer along. */
  function NextWire(s: State, w: Wire, e: Event): Wire
    requires Enabled(s, e)
  {
    if e.SocketConnects? then Wire(true, w.out + w.buffered + Handed(s, e), [], w.lost)
    else if e.SocketDrops? then w.(up := false)
    else if SocketChanges(s, e) then Wire(false, w.out, [], w.lost + w.buffered)
    else if s.link.live == {} then w.(lost := w.lost + Handed(s, e))
    else if w.up then w.(out := w.out + Handed(s, e))
    else w.(buffered := w.buffered + Handed(s, e))
  }

  function RunWire(s: State, w: Wire, events: seq<Event>): Wire
    requires Runnable(s, events)
    decreases |events|
  {
    if events == [] then w else RunWire(Next(s, events[0]), NextWire(s, w, events[0]), events[1..])
  }

  const UNUSED := Wire(false, [], [], [])

  /** Every emission is in one place, and only a live socket is up or holds a buffer, one at a time. */
  ghost predicate WireInv(s: State, w: Wire) {
    && Messages(s.mail.emitted) == multiset(w.out) + multiset(w.buffered) + multiset(w.lost)
    && (w.up ==> s.link.live != {} && w.buffered == []) && (w.buffered != [] ==> s.link.live != {})
  }

  /** A step only adds emissions, and none where it drops or changes the socket. */
  lemma HandedIsEmitted(b: Bound, s: State, e: Event)
    requires Inv(b, s) && Enabled(s, e)
    ensures Messages(Next(s, e).mail.emitted) == Messages(s.mail.emitted) + multiset(Handed(s, e))
    ensures SocketChanges(s, e) || e.SocketDrops? ==> Handed(s, e) == []
  {
    EmissionsGrow(b, s, e);
    NewMessagesAppend(s.mail.emitted, NextMail(s.link, s.mail, e).emitted);
  }

  lemma {:induction false} NewMessagesAppend(before: seq<Emission>, after: seq<Emission>)
    requires before <= after
    ensures Messages(after) == Messages(before) + multiset(NewMessages(|before|, after))
    ensures |NewMessages(|before|, after)| == |after| - |before|
  {
    if |after| > |before| {
      NewMessagesAppend(before, after[..|after| - 1]);
    } else {
      assert after == before;
    }
  }

  lemma EmissionsGrow(b: Bound, s: State, e: Event)
    requires Inv(b, s) && Enabled(s, e)
    ensures s.mail.emitted <= Next(s, e).mail.emitted
    ensures Next(s, e).mail.emitted != s.mail.emitted ==>
      e.SocketConnects? || ((e.SocketJoined? || e.SendMessage?) && CanSend(s.link))
    ensures e.SocketConnects? || e.SocketJoined? || e.SendMessage? ==> !SocketChanges(s, e)
  {
  }

  /** A step loses messages exactly when it sends on a socket given up, or gives up one that holds a buffer. */
  lemma LosesExactly(b: Bound, s: State, w: Wire, e: Event)
    requires Inv(b, s) && WireInv(s, w) && Enabled(s, e)
    ensures NextWire(s, w, e).lost != w.lost <==> Loses(s, w, e)
  {
    HandedIsEmitted(b, s, e);
    EmissionsGrow(b, s, e);
    HandedAtOnce(b, s, e);
  }

  predicate Loses(s: State, w: Wire, e: Event)
    requires Enabled(s, e)
  {
    (e.SendMessage? && CanSend(s.link) && s.link.live == {}) || (SocketChanges(s, e) && w.buffered != [])
  }

  lemma HandedAtOnce(b: Bound, s: State, e: Event)
    requires Inv(b, s) && Enabled(s, e)
    ensures e.SendMessage? ==> (Handed(s, e) != [] <==> CanSend(s.link))
    ensures Handed(s, e) != [] ==> Next(s, e).mail.emitted != s.mail.emitted
  {
  }

  /** Whatever a step hands over goes to one of the three places, and what was there stays in one. */
  lemma WirePlaces(s: State, w: Wire, e: Event)
    requires Enabled(s, e) && (SocketChanges(s, e) || e.SocketDrops? ==> Handed(s, e) == [])
    ensures var w' := NextWire(s, w, e);
      multiset(w'.out) + multiset(w'.buffered) + multiset(w'.lost)
      == multiset(w.out) + multiset(w.buffered) + multiset(w.lost) + multiset(Handed(s, e))
  {
    var w', handed := NextWire(s, w, e), Handed(s, e);
    assert multiset(w.out + w.buffered + handed) == multiset(w.out) + multiset(w.buffered) + multiset(handed);
  }

  lemma NextKeepsWire(b: Bound, s: State, w: Wire, e: Event)
    requires Inv(b, s) && WireInv(s, w) && Enabled(s, e)
    ensures WireInv(Next(s, e), NextWire(s, w, e))
  {
    HandedIsEmitted(b, s, e);
    WirePlaces(s, w, e);
    assert !SocketChanges(s, e) ==> Next(s, e).link.live == s.link.live;
    ConnectsAndDropsKeepTheSocket(s, e);
  }

  lemma ConnectsAndDropsKeepTheSocket(s: State, e: Event)
    requires Enabled(s, e)
    ensures e.SocketConnects? || e.SocketDrops? ==> !SocketChanges(s, e) && s.link.live != {}
  {
  }

  // ---------------------------------------------------------------- whole runs

  lemma {:induction false} RunsKeepWire(b: Bound, s: State, w: Wire, events: seq<Event>)
    requires Inv(b, s) && WireInv(s, w) && Runnable(s, events) && forall e :: e in events ==> Fair(b, e)
    ensures Inv(b, Run(s, events)) && WireInv(Run(s, events), RunWire(s, w, events))
    decreases |events|
  {
    if events != [] {
      NextKeepsInv(b, s, events[0]);
      NextKeepsWire(b, s, w, events[0]);
      RunsKeepWire(b, Next(s, events[0]), NextWire(s, w, events[0]), events[1..]);
    }
  }

  /**
   From any page load and in any interleaving each message sent is in exactly one place: out, buffered in the
   live socket, lost with a socket given up, queued, or dropped with its conversation.
   */
  lemma EveryMessageHasOnePlace(b: Bound, cached: Option<Blob>, events: seq<Event>, n: nat)
    requires FairBlob(b, cached) && Runnable(Start(cached), events) && forall e :: e in events ==> Fair(b, e)
    ensures var m, w := Run(Start(cached), events).mail, RunWire(Start(cached), UNUSED, events);
      (multiset(w.out) + multiset(w.buffered) + multiset(w.lost) + multiset(m.pending) + multiset(m.dropped))[n]
      == if n < m.sent then 1 else 0
  {
    StartsInOrder(b, cached);
    RunsKeepWire(b, Start(cached), UNUSED, events);
    assert Places(Run(Start(cached), events).mail)[n] == if n < Run(Start(cached), events).mail.sent then 1 else 0;
  }

  predicate SomeStepLoses(s: State, w: Wire, events: seq<Event>)
    requires Runnable(s, events)
    decreases |events|
  {
    events != []
      && (Loses(s, w, events[0]) || SomeStepLoses(Next(s, events[0]), NextWire(s, w, events[0]), events[1..]))
  }

  /** Over every run, messages are lost exactly when some step of it loses one. */
  lemma {:induction false} RunLosesExactly(b: Bound, s: State, w: Wire, events: seq<Event>)
    requires Inv(b, s) && WireInv(s, w) && Runnable(s, events) && forall e :: e in events ==> Fair(b, e)
    ensures w.lost <= RunWire(s, w, events).lost
    ensures RunWire(s, w, events).lost != w.lost <==> SomeStepLoses(s, w, events)
    decreases |events|
  {
    if events != [] {
      LosesExactly(b, s, w, events[0]);
      NextKeepsInv(b, s, events[0]);
      NextKeepsWire(b, s, w, events[0]);
      assert w.lost <= NextWire(s, w, events[0]).lost;
      RunLosesExactly(b, Next(s, events[0]), NextWire(s, w, events[0]), events[1..]);
    }
  }

  // ---------------------------------------------------------------- where the loss comes from

  /** The widget thinks it is connected only while its socket is. */
  predicate KnowsItsSocket(s: State, w: Wire) {
    (s.link.connected ==> w.up) && w.buffered == [] && w.lost == []
  }

  /** The flag outlives its socket exactly when the socket changes while it is set. */
  lemma FlagGoesStaleExactly(b: Bound, s: State, w: Wire, e: Event)
    requires Inv(b, s) && WireInv(s, w) && KnowsItsSocket(s, w) && Enabled(s, e)
    ensures KnowsItsSocket(Next(s, e), NextWire(s, w, e)) <==> !(SocketChanges(s, e) && s.link.connected)
  {
    EmissionsGrow(b, s, e);
    HandedAtOnce(b, s, e);
    FlagMoves(s, e);
    ConnectsAndDropsKeepTheSocket(s, e);
  }

  lemma FlagMoves(s: State, e: Event)
    requires Enabled(s, e)
    ensures Next(s, e).link.connected
      == if e.SocketConnects? then true else if e.SocketDrops? then false else s.link.connected
  {
    match e
    case SocketRefuses(_, cache) => RecoveryKeepsFlag(s.link, cache);
    case HistoryArrives(_, cache) => RecoveryKeepsFlag(s.link.(backfills := s.link.backfills - 1), cache);
    case NewArrives(answer, cache) => AnswerKeepsFlag(s.link, answer, cache);
    case _ =>
  }

  lemma RecoveryKeepsFlag(l: Link, cache: Cache)
    ensures Recover(l, cache).connected == l.connected
  {
  }

  lemma AnswerKeepsFlag(l: Link, answer: NewAnswer, cache: Cache)
    ensures AnswerNew(l, answer, cache).connected == l.connected
  {
    RecoveryKeepsFlag(l, cache);
  }

  predicate KeepsConnectedSocket(s: State, events: seq<Event>)
    requires Runnable(s, events)
    decreases |events|
  {
    events != [] ==>
      !(SocketChanges(s, events[0]) && s.link.connected) && KeepsConnectedSocket(Next(s, events[0]), events[1..])
  }

  lemma {:induction false} FlagStaysTrue(b: Bound, s: State, w: Wire, events: seq<Event>)
    requires Inv(b, s) && WireInv(s, w) && KnowsItsSocket(s, w)
    requires Runnable(s, events) && KeepsConnectedSocket(s, events) && forall e :: e in events ==> Fair(b, e)
    ensures KnowsItsSocket(Run(s, events), RunWire(s, w, events))
    decreases |events|
  {
    if events != [] {
      FlagGoesStaleExactly(b, s, w, events[0]);
      NextKeepsInv(b, s, events[0]);
      NextKeepsWire(b, s, w, events[0]);
      FlagStaysTrue(b, Next(s, events[0]), NextWire(s, w, events[0]), events[1..]);
    }
  }

  /**
   So where no socket is replaced or given up while `_connected` is set, every message sent is out, queued or
   dropped.
   */
  lemma NoMessageIsLost(b: Bound, cached: Option<Blob>, events: seq<Event>, n: nat)
    requires FairBlob(b, cached) && Runnable(Start(cached), events) && forall e :: e in events ==> Fair(b, e)
    requires KeepsConnectedSocket(Start(cached), events)
    ensures var m, w := Run(Start(cached), events).mail, RunWire(Start(cached), UNUSED, events);
      n < m.sent ==> n in w.out || n in m.pending || n in m.dropped
  {
    StartsInOrder(b, cached);
    FlagStaysTrue(b, Start(cached), UNUSED, events);
    EveryMessageHasOnePlace(b, cached, events, n);
  }

  // ---------------------------------------------------------------- it happens

  /** A connected flag over a socket that is not up: where a message is lost. */
  ghost predicate FlagIsStale(s: State, w: Wire, n: nat) {
    s.link.live == {n} && s.link.socket == Some(n) && CanSend(s.link) && !w.up && w.buffered == []
  }

  /** A forbidden answer and a recovery leave the flag set over a socket that has not connected. */
  lemma RecoveryLeavesFlagStale(b: Bound, s: State, w: Wire, k: nat, g: Grant, cache: Cache)
    requires Inv(b, s) && WireInv(s, w) && k in s.link.live && CanSend(s.link) && !s.link.recovering && cache.clears
    ensures var e, n, init := s.link.epoch + 1, |s.link.sockets|, Some(InitAnswer(g.session, Some(g.token)));
      var waiting := Next(s, SocketRefuses(k, cache));
      Enabled(waiting, InitArrives(e, init, cache)) &&
      var answered := Next(waiting, InitArrives(e, init, cache));
      Enabled(answered, ConnectRuns(e)) &&
      var reopened := Next(answered, ConnectRuns(e));
      var wire := NextWire(answered,
        NextWire(waiting, NextWire(s, w, SocketRefuses(k, cache)), InitArrives(e, init, cache)),
        ConnectRuns(e));
      FlagIsStale(reopened, wire, n) && wire.lost == w.lost + w.buffered && reopened.mail.sent == s.mail.sent
  {
    var e, n, init := s.link.epoch + 1, |s.link.sockets|, Some(InitAnswer(g.session, Some(g.token)));
    var waiting := Next(s, SocketRefuses(k, cache));
    assert waiting.link.connected && waiting.link.live == {} && waiting.link.pieces[e] == Asking(true);
    var answered := Next(waiting, InitArrives(e, init, cache));
    assert answered.link.live == {} && answered.link.token == Some(g.token) && answered.link.pieces[e] == Connecting;
    assert answered.link.connected && answered.link.session == Some(g.session);
    assert Handed(waiting, InitArrives(e, init, cache)) == [];
    assert SocketChanges(s, SocketRefuses(k, cache)) && SocketChanges(answered, ConnectRuns(e));
  }

  lemma SendHands(s: State)
    requires CanSend(s.link)
    ensures Handed(s, SendMessage) == [s.mail.sent]
  {
    var emitted, n := NextMail(s.link, s.mail, SendMessage).emitted, |s.mail.emitted|;
    assert emitted == s.mail.emitted + [Emission(s.mail.sent, s.link.session.value, s.link.socket.value)];
    assert emitted[..n] == s.mail.emitted && NewMessages(n, s.mail.emitted) == [];
  }

  lemma LostAfterRefusal(s: State, w: Wire, n: nat)
    requires FlagIsStale(s, w, n)
    ensures var refused := Next(s, SocketInvalid(n));
      var wire := NextWire(refused, NextWire(s, w, SocketInvalid(n)), SendMessage);
      wire.lost == w.lost + [s.mail.sent] && Next(refused, SendMessage).mail.pending == s.mail.pending
  {
    var refused := Next(s, SocketInvalid(n));
    assert refused.link.live == {} && CanSend(refused.link) && refused.mail == s.mail;
    SendHands(refused);
    assert Handed(s, SocketInvalid(n)) == [];
    assert NextWire(s, w, SocketInvalid(n)).lost == w.lost;
  }

  lemma LostBeforeRefusal(s: State, w: Wire, n: nat)
    requires FlagIsStale(s, w, n)
    ensures var sent := Next(s, SendMessage);
      var wire := NextWire(sent, NextWire(s, w, SendMessage), SocketInvalid(n));
      wire.lost == w.lost + [s.mail.sent] && Next(sent, SocketInvalid(n)).mail.pending == s.mail.pending
  {
    var sent := Next(s, SendMessage);
    SendHands(s);
    assert NextWire(s, w, SendMessage).buffered == [s.mail.sent] && NextWire(s, w, SendMessage).lost == w.lost;
    assert SocketChanges(sent, SocketInvalid(n));
  }

  /** There a message is lost either way: sent after the server calls the token invalid, or before it. */
  lemma StaleFlagLosesMessage(reopened: State, w: Wire, n: nat)
    requires FlagIsStale(reopened, w, n)
    ensures var refused := Next(reopened, SocketInvalid(n));
      var wire := NextWire(refused, NextWire(reopened, w, SocketInvalid(n)), SendMessage);
      wire.lost == w.lost + [reopened.mail.sent] && Next(refused, SendMessage).mail.pending == reopened.mail.pending
    ensures var sent := Next(reopened, SendMessage);
      var wire := NextWire(sent, NextWire(reopened, w, SendMessage), SocketInvalid(n));
      wire.lost == w.lost + [reopened.mail.sent] && Next(sent, SocketInvalid(n)).mail.pending == reopened.mail.pending
  {
    LostAfterRefusal(reopened, w, n);
    LostBeforeRefusal(reopened, w, n);
    hide NextWire, Next;
  }
}
