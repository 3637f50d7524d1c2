/** What every interleaving of the widget's steps keeps. */
module WidgetInvariants {
  import opened Wrappers
  import opened WidgetModel

  ghost predicate Binds(b: Bound, a: InitAnswer) {
    a.token.Some? ==> b(a.token.value) == a.session
  }

  /** The server binds the token it hands out to the session it hands out. */
  ghost predicate Fair(b: Bound, e: Event) {
    && (e.InitArrives? && e.init.Some? ==> Binds(b, e.init.value))
    && (e.NewArrives? && e.answer.Granted? ==> b(e.answer.grant.token) == e.answer.grant.session)
  }

  ghost predicate FairBlob(b: Bound, blob: Option<Blob>) {
    blob.Some? && blob.value.token.Some? && blob.value.session.Some? ==>
      b(blob.value.token.value) == blob.value.session.value
  }

  /** The only live socket is the widget's own, and it was opened with the token the widget holds now. */
  ghost predicate OneSocket(l: Link) {
    && (forall k :: k in l.live ==> l.socket == Some(k))
    && (l.socket.Some? ==> l.socket.value < |l.sockets| && l.token == Some(l.sockets[l.socket.value]))
  }

  /** The token held is bound to the session named. */
  ghost predicate BoundToken(b: Bound, l: Link) {
    l.token.Some? ==> l.session == Some(b(l.token.value))
  }

  /**
   A lifecycle waits under its own epoch, none is ahead of the widget, and while the current one waits there is
   no socket.
   */
  ghost predicate PiecesInOrder(l: Link) {
    && (forall e :: e in l.pieces ==> e <= l.epoch)
    && (forall e :: e in l.pieces && l.pieces[e].Asking? ==> l.pieces[e].recovery == (e > 0))
    && (l.epoch in l.pieces ==> l.socket.None?)
    && (l.pieces != map[] || l.socket.Some? || l.backfills > 0 || l.token.Some? ==> l.scriptLoaded)
  }

  /** Before the script is in, nothing has begun. */
  ghost predicate Booting(l: Link) {
    l.booting ==>
      l.epoch == 0 && l.token.None? && l.socket.None? && l.pieces == map[] && l.backfills == 0 && !l.scriptLoaded
        && !l.recovering
  }

  /** Only a recovery sets the guard, and every recovery starts an epoch. */
  ghost predicate Guarded(l: Link) {
    l.recovering ==> l.epoch > 0
  }

  ghost predicate Lives(b: Bound, l: Link) {
    OneSocket(l) && BoundToken(b, l) && FairBlob(b, l.stored) && PiecesInOrder(l) && Booting(l) && Guarded(l)
  }

  /** One new-conversation request at most, and only once the script is in. */
  ghost predicate OneRequest(b: Button, l: Link) {
    b.asked == (if b.startingNew then 1 else 0) && (b.asked > 0 ==> l.scriptLoaded)
  }

  function Messages(es: seq<Emission>): multiset<nat> {
    if es == [] then multiset{} else Messages(es[..|es| - 1]) + multiset{es[|es| - 1].message}
  }

  /** Every message sent so far stands in exactly one place: emitted, queued, or dropped with its conversation. */
  function Places(m: Mail): multiset<nat> {
    Messages(m.emitted) + multiset(m.pending) + multiset(m.dropped)
  }

  ghost predicate Conserved(m: Mail) {
    forall n: nat :: Places(m)[n] == if n < m.sent then 1 else 0
  }

  /** Every emission names the session its socket was opened for. */
  ghost predicate WellAddressed(b: Bound, sockets: seq<Token>, es: seq<Emission>) {
    forall i :: 0 <= i < |es| ==> es[i].socket < |sockets| && b(sockets[es[i].socket]) == es[i].session
  }

  ghost predicate Inv(b: Bound, s: State) {
    Lives(b, s.link) && OneRequest(s.button, s.link) && WellAddressed(b, s.link.sockets, s.mail.emitted)
      && Conserved(s.mail)
  }

  // ---------------------------------------------------------------- the lifecycle

  /** Resuming the cache or asking the server, for an epoch just begun. */
  lemma InitSessionLives(b: Bound, l: Link, recovery: bool, cache: Cache)
    requires OneSocket(l) && FairBlob(b, l.stored) && PiecesInOrder(l) && !l.booting
    requires l.scriptLoaded && l.socket.None? && l.token.None? && l.epoch !in l.pieces
    requires recovery == (l.epoch > 0) && (l.recovering ==> recovery)
    ensures Lives(b, InitSession(l, l.epoch, recovery, cache))
  {
  }

  lemma RecoverLives(b: Bound, l: Link, cache: Cache)
    requires Lives(b, l) && l.scriptLoaded
    ensures Lives(b, Recover(l, cache))
  {
    if !l.recovering {
      var t := TearDown(l).(recovering := true, epoch := l.epoch + 1, stored := if cache.clears then None else l.stored,
        token := None);
      InitSessionLives(b, t, true, cache);
    }
  }

  lemma ConnectLives(b: Bound, l: Link, epoch: nat)
    requires Lives(b, l) && epoch in l.pieces && l.pieces[epoch].Connecting?
    ensures Lives(b, ConnectSocket(l.(pieces := l.pieces - {epoch}), epoch))
  {
  }

  lemma AnswerInitLives(b: Bound, l: Link, epoch: nat, answer: Option<InitAnswer>, cache: Cache)
    requires Lives(b, l) && epoch in l.pieces && l.pieces[epoch].Asking?
    requires answer.Some? ==> Binds(b, answer.value)
    ensures Lives(b, AnswerInit(l.(pieces := l.pieces - {epoch}), epoch, l.pieces[epoch].recovery, answer, cache))
  {
    var rest := l.(pieces := l.pieces - {epoch});
    assert forall e :: e in rest.pieces ==> e in l.pieces && rest.pieces[e] == l.pieces[e];
    if answer.Some? && epoch == l.epoch {
      InitAnsweredLives(b, rest, answer.value, cache);
    }
  }

  lemma InitAnsweredLives(b: Bound, l: Link, a: InitAnswer, cache: Cache)
    requires OneSocket(l) && FairBlob(b, l.stored) && PiecesInOrder(l) && !l.booting && l.scriptLoaded && l.socket.None?
    requires l.epoch !in l.pieces && (l.recovering ==> l.epoch > 0) && Binds(b, a)
    ensures Lives(b, Waiting(Saved(With(l, a.session, a.token), cache.saves), l.epoch, Connecting))
  {
  }

  lemma AdoptLives(b: Bound, l: Link, g: Grant, cache: Cache)
    requires Lives(b, l) && l.scriptLoaded && b(g.token) == g.session
    ensures Lives(b, Adopt(l, g, cache))
  {
  }

  lemma AnswerNewLives(b: Bound, l: Link, answer: NewAnswer, cache: Cache)
    requires Lives(b, l) && l.scriptLoaded && (answer.Granted? ==> b(answer.grant.token) == answer.grant.session)
    ensures Lives(b, AnswerNew(l, answer, cache))
  {
    match answer
    case Granted(g) => AdoptLives(b, l, g, cache);
    case Unauthorized => RecoverLives(b, l, cache);
    case Refused =>
  }

  lemma ScriptLives(b: Bound, l: Link, ok: bool, cache: Cache)
    requires Lives(b, l) && l.booting
    ensures Lives(b, NextLink(l, ScriptArrives(ok, cache)))
  {
    if ok { InitSessionLives(b, l.(booting := false, scriptLoaded := true), false, cache); }
  }

  lemma HistoryLives(b: Bound, l: Link, unauthorized: bool, cache: Cache)
    requires Lives(b, l) && l.backfills > 0
    ensures Lives(b, NextLink(l, HistoryArrives(unauthorized, cache)))
  {
    if unauthorized { RecoverLives(b, l.(backfills := l.backfills - 1), cache); }
  }

  lemma NextLives(b: Bound, s: State, e: Event)
    requires Lives(b, s.link) && OneRequest(s.button, s.link) && Enabled(s, e) && Fair(b, e)
    ensures Lives(b, NextLink(s.link, e))
  {
    var l := s.link;
    match e
    case ScriptArrives(ok, cache) => ScriptLives(b, l, ok, cache);
    case InitArrives(epoch, answer, cache) => AnswerInitLives(b, l, epoch, answer, cache);
    case ConnectRuns(epoch) => ConnectLives(b, l, epoch);
    case SocketRefuses(_, cache) => RecoverLives(b, l, cache);
    case HistoryArrives(unauthorized, cache) => HistoryLives(b, l, unauthorized, cache);
    case NewArrives(answer, cache) => AnswerNewLives(b, l, answer, cache);
    case _ => QuietLives(b, l, e);
  }

  /** A connect, a join, a drop or a save starts and ends no lifecycle. */
  lemma QuietLives(b: Bound, l: Link, e: Event)
    requires Lives(b, l)
    requires (e.SocketConnects? || e.SocketJoined? || e.SocketDrops? || e.SocketInvalid? || e.TapNew? || e.SendMessage?
      || e.Save?)
    requires e.SocketConnects? || e.SocketJoined? ==> l.socket.Some?
    ensures Lives(b, NextLink(l, e))
  {
  }

  /** Sockets are only ever added, and the script stays. */
  ghost predicate Grows(l: Link, r: Link) {
    l.sockets <= r.sockets && (l.scriptLoaded ==> r.scriptLoaded)
  }

  lemma ConnectGrows(l: Link, epoch: nat)
    ensures Grows(l, ConnectSocket(l, epoch))
  {
  }

  lemma RecoverGrows(l: Link, cache: Cache)
    ensures Grows(l, Recover(l, cache))
  {
  }

  lemma AnswerNewGrows(l: Link, answer: NewAnswer, cache: Cache)
    ensures Grows(l, AnswerNew(l, answer, cache))
  {
    match answer
    case Granted(g) =>
      ConnectGrows(Saved(With(TearDown(l).(epoch := l.epoch + 1, recovering := false), g.session, Some(g.token)),
        cache.saves),
                   l.epoch + 1);
    case Unauthorized => RecoverGrows(l, cache);
    case Refused =>
  }

  lemma NextGrows(s: State, e: Event)
    requires Enabled(s, e)
    ensures Grows(s.link, NextLink(s.link, e))
  {
    match e
    case ConnectRuns(epoch) => ConnectGrows(s.link.(pieces := s.link.pieces - {epoch}), epoch);
    case SocketRefuses(_, cache) => RecoverGrows(s.link, cache);
    case HistoryArrives(unauthorized, cache) =>
      if unauthorized { RecoverGrows(s.link.(backfills := s.link.backfills - 1), cache); }
    case NewArrives(answer, cache) => AnswerNewGrows(s.link, answer, cache);
    case _ =>
  }

  /**
   A superseded init is heard, and neither it nor its connect changes anything the visitor or the server could
   see; but one that fails as a recovery clears the guard, which by then is a newer recovery's.
   */
  lemma SupersededInitChangesNothing(b: Bound, s: State, epoch: nat, answer: Option<InitAnswer>, cache: Cache)
    requires Inv(b, s) && Enabled(s, InitArrives(epoch, answer, cache)) && epoch != s.link.epoch
    ensures var heard := Next(s, InitArrives(epoch, answer, cache));
      var rest := s.link.pieces - {epoch};
      if answer.Some? then
        && heard == s.(link := s.link.(pieces := s.link.pieces[epoch := Connecting]))
        && Enabled(heard, ConnectRuns(epoch)) && Next(heard, ConnectRuns(epoch)) == s.(link := s.link.(pieces := rest))
      else heard == s.(link := s.link.(pieces := rest, recovering := s.link.recovering && epoch == 0))
  {
    assert (s.link.pieces - {epoch})[epoch := Connecting] == s.link.pieces[epoch := Connecting];
    assert s.link.pieces[epoch := Connecting] - {epoch} == s.link.pieces - {epoch};
  }

  // ---------------------------------------------------------------- messages

  lemma {:induction false} MessagesAppend(a: seq<Emission>, c: seq<Emission>)
    ensures Messages(a + c) == Messages(a) + Messages(c)
  {
    if c == [] {
      assert a + c == a;
    } else {
      var n := |c| - 1;
      assert (a + c)[..|a + c| - 1] == a + c[..n];
      MessagesAppend(a, c[..n]);
    }
  }

  lemma {:induction false} EmittedMessages(l: Link, messages: seq<nat>)
    requires l.session.Some? && l.socket.Some?
    ensures Messages(Emitted(l, messages)) == multiset(messages)
  {
    if messages != [] {
      var n := |messages| - 1;
      EmittedMessages(l, messages[..n]);
      assert Emitted(l, messages)[..n] == Emitted(l, messages[..n]);
      assert messages == messages[..n] + [messages[n]];
    }
  }

  lemma FlushConserves(l: Link, m: Mail)
    requires Conserved(m)
    ensures Conserved(Flush(l, m))
  {
    if CanSend(l) && m.pending != [] {
      MessagesAppend(m.emitted, Emitted(l, m.pending));
      EmittedMessages(l, m.pending);
      assert multiset(Flush(l, m).pending) == multiset{};
      assert Places(Flush(l, m)) == Places(m);
    }
  }

  lemma SendConserves(l: Link, m: Mail)
    requires Conserved(m)
    ensures Conserved(Send(l, m))
  {
    if CanSend(l) {
      MessagesAppend(m.emitted, Emitted(l, [m.sent]));
      EmittedMessages(l, [m.sent]);
      assert Messages(Send(l, m).emitted) == Messages(m.emitted) + multiset{m.sent};
    } else {
      assert multiset(Send(l, m).pending) == multiset(m.pending) + multiset{m.sent};
    }
    assert Places(Send(l, m)) == Places(m) + multiset{m.sent};
  }

  lemma NextConserves(l: Link, m: Mail, e: Event)
    requires Conserved(m)
    ensures Conserved(NextMail(l, m, e))
  {
    match e
    case InitArrives(_, Some(a), _) => FlushConserves(With(l, a.session, a.token), m);
    case SocketConnects(_) => FlushConserves(l.(connected := true), m);
    case SocketJoined(_, _) => FlushConserves(l, m);
    case NewArrives(Granted(_), _) =>
      assert Places(NextMail(l, m, e)) == Places(m);
    case SendMessage => SendConserves(l, m);
    case _ =>
  }

  /** What the widget sends now names the session its socket was opened for. */
  lemma FlushIsAddressed(b: Bound, l: Link, m: Mail)
    requires OneSocket(l) && BoundToken(b, l) && WellAddressed(b, l.sockets, m.emitted)
    ensures WellAddressed(b, l.sockets, Flush(l, m).emitted)
  {
    if CanSend(l) && m.pending != [] {
      assert Flush(l, m).emitted == m.emitted + Emitted(l, m.pending);
    }
  }

  lemma NextIsAddressed(b: Bound, s: State, e: Event)
    requires Inv(b, s) && Enabled(s, e)
    ensures WellAddressed(b, s.link.sockets, NextMail(s.link, s.mail, e).emitted)
  {
    match e
    case InitArrives(epoch, Some(_), _) =>
      if epoch == s.link.epoch { assert s.link.socket.None?; }
    case SocketConnects(_) => FlushIsAddressed(b, s.link.(connected := true), s.mail);
    case SocketJoined(_, _) => FlushIsAddressed(b, s.link, s.mail);
    case _ =>
  }

  lemma NextKeepsInv(b: Bound, s: State, e: Event)
    requires Inv(b, s) && Enabled(s, e) && Fair(b, e)
    ensures Inv(b, Next(s, e))
  {
    NextLives(b, s, e);
    NextGrows(s, e);
    NextConserves(s.link, s.mail, e);
    NextIsAddressed(b, s, e);
    var sockets := NextLink(s.link, e).sockets;
    assert forall k :: 0 <= k < |s.link.sockets| ==> sockets[k] == s.link.sockets[k];
  }

  // ---------------------------------------------------------------- whole runs

  ghost predicate Runnable(s: State, events: seq<Event>)
    decreases |events|
  {
    events != [] ==> Enabled(s, events[0]) && Runnable(Next(s, events[0]), events[1..])
  }

  ghost function Run(s: State, events: seq<Event>): State
    requires Runnable(s, events)
    decreases |events|
  {
    if events == [] then s else Run(Next(s, events[0]), events[1..])
  }

  /** Every interleaving of connect, recovery, new conversations, socket events and messages keeps the invariant. */
  lemma {:induction false} RunsKeepInv(b: Bound, s: State, events: seq<Event>)
    requires Inv(b, s) && Runnable(s, events) && forall e :: e in events ==> Fair(b, e)
    ensures Inv(b, Run(s, events))
    decreases |events|
  {
    if events != [] {
      NextKeepsInv(b, s, events[0]);
      RunsKeepInv(b, Next(s, events[0]), events[1..]);
    }
  }

  lemma {:induction false} CountsOnce(es: seq<Emission>, i: nat, j: nat)
    requires i < j < |es|
    requires es[i].message == es[j].message
    ensures Messages(es)[es[i].message] >= 2
  {
    if j < |es| - 1 {
      CountsOnce(es[..|es| - 1], i, j);
    } else {
      Occurs(es[..j], i);
    }
  }

  lemma {:induction false} Occurs(es: seq<Emission>, i: nat)
    requires i < |es|
    ensures Messages(es)[es[i].message] >= 1
  {
    if i < |es| - 1 {
      Occurs(es[..|es| - 1], i);
    }
  }

  /** A message emitted twice would stand in two places. */
  lemma EmittedOnce(m: Mail, i: nat, j: nat)
    requires Conserved(m) && i < j < |m.emitted|
    ensures m.emitted[i].message != m.emitted[j].message
  {
    AtMostOneEach(m, m.emitted[i].message);
    if m.emitted[i].message == m.emitted[j].message {
      CountsOnce(m.emitted, i, j);
    }
  }

  lemma AtMostOneEach(m: Mail, n: nat)
    requires Conserved(m)
    ensures Messages(m.emitted)[n] <= 1
  {
    assert Places(m)[n] <= 1;
  }

  /**
   From any page load and in any interleaving: there is one live socket at most, the widget's own, opened
   with the token it holds; no message goes out under a session other than its socket's, and none twice.
   */
  lemma OneSocketOneSession(b: Bound, cached: Option<Blob>, events: seq<Event>)
    requires FairBlob(b, cached) && Runnable(Start(cached), events) && forall e :: e in events ==> Fair(b, e)
    ensures var s := Run(Start(cached), events);
      && (forall k, j :: k in s.link.live && j in s.link.live ==> k == j)
      && (forall k :: k in s.link.live ==>
            s.link.socket == Some(k) && k < |s.link.sockets| && s.link.token == Some(s.link.sockets[k])
              && s.link.session == Some(b(s.link.sockets[k])))
      && WellAddressed(b, s.link.sockets, s.mail.emitted)
      && (forall i, j :: 0 <= i < j < |s.mail.emitted| ==> s.mail.emitted[i].message != s.mail.emitted[j].message)
  {
    var s := Run(Start(cached), events);
    StartsInOrder(b, cached);
    RunsKeepInv(b, Start(cached), events);
    forall i, j | 0 <= i < j < |s.mail.emitted| ensures s.mail.emitted[i].message != s.mail.emitted[j].message {
      EmittedOnce(s.mail, i, j);
    }
  }

  lemma StartsInOrder(b: Bound, cached: Option<Blob>)
    requires FairBlob(b, cached)
    ensures Inv(b, Start(cached))
  {
  }

  // ---------------------------------------------------------------- recoveries that nothing will end

  /** A recovery with no piece waiting in its epoch and no socket to hear from. */
  predicate Stranded(l: Link) {
    l.recovering && l.epoch !in l.pieces && l.live == {}
  }

  /** Its socket is refused as invalid, or its turn to connect comes without a token. */
  predicate Strands(l: Link, e: Event) {
    l.recovering && (e.SocketInvalid? || (e.ConnectRuns? && e.epoch == l.epoch && l.token.None?))
  }

  /** A new conversation asked for earlier is granted, or the init of an earlier recovery fails. */
  predicate Rescues(l: Link, e: Event) {
    || (e.NewArrives? && e.answer.Granted?)
    || (e.InitArrives? && e.init.None? && e.epoch in l.pieces && l.pieces[e.epoch] == Asking(true))
  }

  /** One step, in both directions. */
  lemma StrandsExactly(b: Bound, s: State, e: Event)
    requires Inv(b, s) && Enabled(s, e)
    ensures Stranded(Next(s, e).link) <==> Strands(s.link, e) || (Stranded(s.link) && !Rescues(s.link, e))
  {
    var l := s.link;
    match e
    case InitArrives(epoch, init, cache) => InitStrands(b, l, epoch, init, cache);
    case ConnectRuns(epoch) => ConnectStrands(b, l, epoch);
    case SocketRefuses(_, cache) => RecoverNeverStrands(l, cache);
    case SocketInvalid(k) => assert l.live == {k};
    case HistoryArrives(_, cache) => RecoverNeverStrands(l.(backfills := l.backfills - 1), cache);
    case NewArrives(answer, cache) => AnswerStrands(l, answer, cache);
    case _ =>
  }

  lemma InitStrands(b: Bound, l: Link, epoch: nat, init: Option<InitAnswer>, cache: Cache)
    requires Lives(b, l) && epoch in l.pieces && l.pieces[epoch].Asking?
    ensures Stranded(NextLink(l, InitArrives(epoch, init, cache)))
      <==> Stranded(l) && !(init.None? && l.pieces[epoch].recovery)
  {
  }

  lemma AnswerStrands(l: Link, answer: NewAnswer, cache: Cache)
    ensures Stranded(AnswerNew(l, answer, cache)) <==> Stranded(l) && !answer.Granted?
  {
    RecoverNeverStrands(l, cache);
  }

  lemma ConnectStrands(b: Bound, l: Link, epoch: nat)
    requires Lives(b, l) && epoch in l.pieces && l.pieces[epoch].Connecting?
    ensures var l' := NextLink(l, ConnectRuns(epoch));
      Stranded(l') <==> (l.recovering && epoch == l.epoch && l.token.None?) || Stranded(l)
  {
    var l' := NextLink(l, ConnectRuns(epoch));
    if epoch == l.epoch {
      assert l.live == {};
      assert l.token.Some? ==> |l.sockets| in l'.live;
    }
  }

  lemma RecoverNeverStrands(l: Link, cache: Cache)
    ensures Stranded(Recover(l, cache)) <==> Stranded(l)
  {
  }

  /** What the events of a run make of it: the last that strands or rescues decides. */
  predicate LastStrands(s: State, events: seq<Event>, stranded: bool)
    requires Runnable(s, events)
    decreases |events|
  {
    if events == [] then stranded
    else LastStrands(Next(s, events[0]), events[1..],
      Strands(s.link, events[0]) || (stranded && !Rescues(s.link, events[0])))
  }

  lemma {:induction false} RunStrandsExactly(b: Bound, s: State, events: seq<Event>)
    requires Inv(b, s) && Runnable(s, events) && forall e :: e in events ==> Fair(b, e)
    ensures Stranded(Run(s, events).link) <==> LastStrands(s, events, Stranded(s.link))
    decreases |events|
  {
    if events != [] {
      NextKeepsInv(b, s, events[0]);
      StrandsExactly(b, s, events[0]);
      RunStrandsExactly(b, Next(s, events[0]), events[1..]);
    }
  }

  lemma {:induction false} NothingStrands(s: State, events: seq<Event>)
    requires Runnable(s, events) && Tokened(s.link)
    requires forall e :: e in events ==>
      !e.SocketInvalid? && (e.InitArrives? && e.init.Some? ==> e.init.value.token.Some?)
    ensures !LastStrands(s, events, false)
    decreases |events|
  {
    if events != [] {
      TokensStay(s, events[0]);
      NothingStrands(Next(s, events[0]), events[1..]);
    }
  }

  /**
   Over every run from a page load, a recovery is left without a waiting piece and without a socket to hear
   from exactly when the last event that could decide it was a socket refused as invalid, or a connect that
   found no token.
   */
  lemma RecoveryIsStrandedExactly(b: Bound, cached: Option<Blob>, events: seq<Event>)
    requires FairBlob(b, cached) && Runnable(Start(cached), events) && forall e :: e in events ==> Fair(b, e)
    ensures Stranded(Run(Start(cached), events).link) <==> LastStrands(Start(cached), events, false)
  {
    StartsInOrder(b, cached);
    RunStrandsExactly(b, Start(cached), events);
  }

  /** A lifecycle about to connect has its token, unless an init response brought none. */
  ghost predicate Tokened(l: Link) {
    l.epoch in l.pieces && l.pieces[l.epoch].Connecting? ==> l.token.Some?
  }

  lemma TokensStay(s: State, e: Event)
    requires Enabled(s, e) && Tokened(s.link) && (e.InitArrives? && e.init.Some? ==> e.init.value.token.Some?)
    ensures Tokened(Next(s, e).link)
  {
    var l := s.link;
    match e
    case ScriptArrives(ok, cache) => InitSessionTokens(l.(booting := false, scriptLoaded := true), 0, false, cache);
    case SocketRefuses(_, cache) => RecoverTokens(l, cache);
    case HistoryArrives(_, cache) => RecoverTokens(l.(backfills := l.backfills - 1), cache);
    case NewArrives(answer, cache) => AnswerNewTokens(l, answer, cache);
    case InitArrives(epoch, init, cache) => InitTokens(l, epoch, init, cache);
    case ConnectRuns(epoch) => ConnectTokens(l, epoch);
    case _ =>
  }

  lemma InitTokens(l: Link, epoch: nat, init: Option<InitAnswer>, cache: Cache)
    requires Tokened(l) && epoch in l.pieces && l.pieces[epoch].Asking? && (init.Some? ==> init.value.token.Some?)
    ensures Tokened(AnswerInit(l.(pieces := l.pieces - {epoch}), epoch, l.pieces[epoch].recovery, init, cache))
  {
  }

  lemma ConnectTokens(l: Link, epoch: nat)
    requires Tokened(l)
    ensures Tokened(ConnectSocket(l.(pieces := l.pieces - {epoch}), epoch))
  {
  }

  lemma InitSessionTokens(l: Link, epoch: nat, recovery: bool, cache: Cache)
    requires Tokened(l) || l.epoch == epoch
    ensures Tokened(InitSession(l, epoch, recovery, cache))
  {
  }

  lemma RecoverTokens(l: Link, cache: Cache)
    requires Tokened(l)
    ensures Tokened(Recover(l, cache))
  {
  }

  lemma AnswerNewTokens(l: Link, answer: NewAnswer, cache: Cache)
    requires Tokened(l)
    ensures Tokened(AnswerNew(l, answer, cache))
  {
    match answer
    case Granted(g) => assert AnswerNew(l, answer, cache).token == Some(g.token);
    case Unauthorized => RecoverTokens(l, cache);
    case Refused =>
  }

  /** Where no socket is refused as invalid and every init brings a token, an unfinished recovery can always end. */
  lemma RecoveryIsNeverStranded(b: Bound, cached: Option<Blob>, events: seq<Event>)
    requires FairBlob(b, cached) && Runnable(Start(cached), events) && forall e :: e in events ==> Fair(b, e)
    requires forall e :: e in events ==>
      !e.SocketInvalid? && (e.InitArrives? && e.init.Some? ==> e.init.value.token.Some?)
    ensures var l := Run(Start(cached), events).link;
      l.recovering ==> l.epoch in l.pieces || (l.socket.Some? && l.socket.value in l.live)
  {
    var l := Run(Start(cached), events).link;
    RecoveryIsStrandedExactly(b, cached, events);
    NothingStrands(Start(cached), events);
    StartsInOrder(b, cached);
    RunsKeepInv(b, Start(cached), events);
    if l.live != {} {
      var k :| k in l.live;
    }
  }

  /**
   Nothing else ends it: until one of the two rescues arrives, no socket is opened and every other recovery is
   refused.
   */
  lemma {:induction false} StrandedForGood(b: Bound, s: State, events: seq<Event>)
    requires Inv(b, s) && Stranded(s.link) && Runnable(s, events) && forall e :: e in events ==> Fair(b, e)
    requires Unrescued(s, events)
    ensures var l := Run(s, events).link;
      Stranded(l) && l.sockets == s.link.sockets && forall cache :: Recover(l, cache) == l
    decreases |events|
  {
    if events != [] {
      NextKeepsInv(b, s, events[0]);
      StrandsExactly(b, s, events[0]);
      StrandedOpensNothing(b, s, events[0]);
      StrandedForGood(b, Next(s, events[0]), events[1..]);
    }
  }

  predicate Unrescued(s: State, events: seq<Event>)
    requires Runnable(s, events)
    decreases |events|
  {
    events != [] ==> !Rescues(s.link, events[0]) && Unrescued(Next(s, events[0]), events[1..])
  }

  lemma StrandedOpensNothing(b: Bound, s: State, e: Event)
    requires Inv(b, s) && Stranded(s.link) && Enabled(s, e) && !Rescues(s.link, e)
    ensures Next(s, e).link.sockets == s.link.sockets
  {
  }

  /**
   Both happen: from any connected state, a forbidden answer starts a recovery, and either its init brings no
   token, or it does and the server calls that token invalid.
   */
  lemma RecoveryCanStrand(b: Bound, s: State, k: nat, session: Id, token: Option<Token>, cache: Cache)
    requires Inv(b, s) && k in s.link.live && !s.link.recovering && cache.clears
    requires Binds(b, InitAnswer(session, token))
    ensures var e, n, init := s.link.epoch + 1, |s.link.sockets|, Some(InitAnswer(session, token));
      var waiting := Next(s, SocketRefuses(k, cache));
      Enabled(waiting, InitArrives(e, init, cache)) &&
      var answered := Next(waiting, InitArrives(e, init, cache));
      Enabled(answered, ConnectRuns(e)) &&
      var connected := Next(answered, ConnectRuns(e));
      Stranded(connected.link) == token.None?
      && (token.Some? ==>
            Enabled(connected, SocketInvalid(n)) && Stranded(Next(connected, SocketInvalid(n)).link))
  {
    var e, n, init := s.link.epoch + 1, |s.link.sockets|, Some(InitAnswer(session, token));
    var waiting := Next(s, SocketRefuses(k, cache));
    assert waiting.link.live == {} && waiting.link.pieces[e] == Asking(true);
    var answered := Next(waiting, InitArrives(e, init, cache));
    assert answered.link.live == {} && answered.link.token == token && answered.link.pieces[e] == Connecting;
    var connected := Next(answered, ConnectRuns(e));
    assert connected.link.live == if token.None? then {} else {n};
  }

  // ---------------------------------------------------------------- a new conversation starts clean

  /** Everything emitted from position `base` on was sent as number `floor` or later, and so is everything queued. */
  ghost predicate Clean(m: Mail, floor: nat, base: nat) {
    && m.sent >= floor && |m.emitted| >= base
    && (forall i :: base <= i < |m.emitted| ==> m.emitted[i].message >= floor)
    && (forall i :: 0 <= i < |m.pending| ==> m.pending[i] >= floor)
  }

  lemma FlushStaysClean(l: Link, m: Mail, floor: nat, base: nat)
    requires Clean(m, floor, base)
    ensures Clean(Flush(l, m), floor, base)
  {
  }

  lemma NextStaysClean(l: Link, m: Mail, e: Event, floor: nat, base: nat)
    requires Clean(m, floor, base)
    ensures Clean(NextMail(l, m, e), floor, base)
  {
    match e
    case InitArrives(_, Some(a), _) => FlushStaysClean(With(l, a.session, a.token), m, floor, base);
    case SocketConnects(_) => FlushStaysClean(l.(connected := true), m, floor, base);
    case SocketJoined(_, _) => FlushStaysClean(l, m, floor, base);
    case _ =>
  }

  lemma {:induction false} RunStaysClean(s: State, events: seq<Event>, floor: nat, base: nat)
    requires Clean(s.mail, floor, base) && Runnable(s, events)
    ensures Clean(Run(s, events).mail, floor, base)
    decreases |events|
  {
    if events != [] {
      NextStaysClean(s.link, s.mail, events[0], floor, base);
      RunStaysClean(Next(s, events[0]), events[1..], floor, base);
    }
  }

  /** After the server grants a new conversation, no message sent before it ever goes out. */
  lemma NewConversationStartsClean(s: State, g: Grant, cache: Cache, later: seq<Event>)
    requires s.button.asked > 0
    requires var granted := Next(s, NewArrives(Granted(g), cache)); Runnable(granted, later)
    ensures var granted := Next(s, NewArrives(Granted(g), cache));
      Clean(Run(granted, later).mail, s.mail.sent, |s.mail.emitted|)
  {
    RunStaysClean(Next(s, NewArrives(Granted(g), cache)), later, s.mail.sent, |s.mail.emitted|);
  }

  // ---------------------------------------------------------------- order

  /** Out and queued in the order sent, nothing queued older than what is out. */
  ghost predicate InOrder(m: Mail) {
    && (forall i, j :: 0 <= i < j < |m.emitted| ==> m.emitted[i].message < m.emitted[j].message)
    && (forall i, j :: 0 <= i < j < |m.pending| ==> m.pending[i] < m.pending[j])
    && (forall i, j :: 0 <= i < |m.emitted| && 0 <= j < |m.pending| ==> m.emitted[i].message < m.pending[j])
    && (forall i :: 0 <= i < |m.emitted| ==> m.emitted[i].message < m.sent)
    && (forall i :: 0 <= i < |m.pending| ==> m.pending[i] < m.sent)
  }

  /** A step breaks the order exactly when a message goes straight out while others wait in the queue. */
  lemma OrderBreaksExactlyByOvertaking(l: Link, m: Mail, e: Event)
    requires InOrder(m)
    ensures InOrder(NextMail(l, m, e)) <==> !(e.SendMessage? && CanSend(l) && m.pending != [])
  {
    match e
    case InitArrives(_, Some(a), _) => FlushKeepsOrder(With(l, a.session, a.token), m);
    case SocketConnects(_) => FlushKeepsOrder(l.(connected := true), m);
    case SocketJoined(_, _) => FlushKeepsOrder(l, m);
    case SendMessage =>
      if CanSend(l) && m.pending != [] {
        var t := Send(l, m);
        assert t.emitted[|m.emitted|].message == m.sent && t.pending[0] == m.pending[0];
      }
    case _ =>
  }

  lemma FlushKeepsOrder(l: Link, m: Mail)
    requires InOrder(m)
    ensures InOrder(Flush(l, m))
  {
  }

  /**
   It happens: `connected` is not reset when a recovery replaces the socket, so of two messages sent before
   and after the new socket is opened the second goes straight out and the first waits for the connect.
   */
  lemma RecoveryCanReorder(b: Bound, s: State, k: nat, g: Grant, cache: Cache)
    requires Inv(b, s) && k in s.link.live && CanSend(s.link) && !s.link.recovering && s.mail.pending == []
      && cache.clears
    requires b(g.token) == g.session
    ensures var e, n, init := s.link.epoch + 1, |s.link.sockets|, Some(InitAnswer(g.session, Some(g.token)));
      var waiting := Next(s, SocketRefuses(k, cache));
      var queued := Next(waiting, SendMessage);
      Enabled(queued, InitArrives(e, init, cache)) &&
      var answered := Next(queued, InitArrives(e, init, cache));
      Enabled(answered, ConnectRuns(e)) &&
      var reopened := Next(Next(answered, ConnectRuns(e)), SendMessage);
      Enabled(reopened, SocketConnects(n)) &&
      Next(reopened, SocketConnects(n)).mail.emitted
        == s.mail.emitted + [Emission(s.mail.sent + 1, g.session, n), Emission(s.mail.sent, g.session, n)]
  {
    var e, n := s.link.epoch + 1, |s.link.sockets|;
    var waiting := Next(s, SocketRefuses(k, cache));
    assert waiting.link.connected && waiting.link.socket.None? && waiting.link.pieces[e] == Asking(true);
    var queued := Next(waiting, SendMessage);
    assert queued.mail.pending == [s.mail.sent];
    var answered := Next(queued, InitArrives(e, Some(InitAnswer(g.session, Some(g.token))), cache));
    assert answered.mail == queued.mail && answered.link.session == Some(g.session) && answered.link.connected;
    var reopened := Next(answered, ConnectRuns(e));
    assert reopened.link.socket == Some(n) && CanSend(reopened.link);
    var overtaken := Next(reopened, SendMessage);
    assert overtaken.mail.pending == [s.mail.sent];
  }
}
