/** Where the widget's lifecycles lead when their awaits are answered: which session and token, and which messages. */
module WidgetProgress {
  import opened Wrappers
  import opened WidgetModel
  import opened WidgetInvariants

  // ---------------------------------------------------------------- how a lifecycle begins

  /** What the cache remembers is whole, and not expired. */
  predicate Resumable(stored: Option<Blob>, cache: Cache) {
    stored.Some? && stored.value.session.Some? && stored.value.token.Some? && cache.usable
  }

  /** The state once a lifecycle of `epoch` has begun: with the cached session, or waiting for the server's. */
  predicate Began(l: Link, after: Link, epoch: nat, recovery: bool, cache: Cache) {
    if Resumable(l.stored, cache) then
      after == l.(session := l.stored.value.session, token := l.stored.value.token,
                  pieces := l.pieces[epoch := Connecting])
    else after == l.(pieces := l.pieces[epoch := Asking(recovery)])
  }

  /**
   When the script is in, the cached session is resumed under its own token exactly when the cache is whole
   and not expired, and then the server is not asked.
   */
  lemma ScriptResumesCache(l: Link, cache: Cache)
    ensures Began(l.(booting := false, scriptLoaded := true), NextLink(l, ScriptArrives(true, cache)), 0, false, cache)
  {
  }

  /** A script that fails to load begins nothing, a history that is not forbidden and a refusal recover nothing. */
  lemma OtherAnswersBeginNothing(s: State, cache: Cache)
    ensures NextLink(s.link, ScriptArrives(false, cache)) == s.link.(booting := false)
    ensures s.link.backfills > 0 ==>
      NextLink(s.link, HistoryArrives(false, cache)) == s.link.(backfills := s.link.backfills - 1)
    ensures s.button.asked > 0 ==>
      Next(s, NewArrives(Refused, cache))
        == s.(button := s.button.(startingNew := false, asked := s.button.asked - 1))
  {
  }

  /** A recovery gives up its socket, its token and, if it can, the cache, and begins a lifecycle of its own. */
  function GivenUp(l: Link, cache: Cache): Link {
    l.(socket := None, live := (set k | k in l.live && l.socket != Some(k)), token := None, recovering := true,
       epoch := l.epoch + 1, stored := if cache.clears then None else l.stored)
  }

  ghost predicate Recovers(l: Link, after: Link, cache: Cache) {
    if l.recovering then after == l else Began(GivenUp(l, cache), after, l.epoch + 1, true, cache)
  }

  lemma RecoverBegins(l: Link, cache: Cache)
    ensures Recovers(l, Recover(l, cache), cache)
  {
    if !l.recovering {
      assert TearDown(l).live == (set j | j in l.live && l.socket != Some(j));
      assert TearDown(l).(recovering := true, epoch := l.epoch + 1, stored := if cache.clears then None else l.stored,
        token := None) == GivenUp(l, cache);
    }
  }

  /** The three forbidden answers recover alike; under a recovery still on its way none of them does anything. */
  lemma ForbiddenAnswersRecover(l: Link, k: nat, cache: Cache)
    ensures Recovers(l, NextLink(l, SocketRefuses(k, cache)), cache)
    ensures Recovers(l, NextLink(l, NewArrives(Unauthorized, cache)), cache)
    ensures l.backfills > 0 ==>
      Recovers(l.(backfills := l.backfills - 1), NextLink(l, HistoryArrives(true, cache)), cache)
  {
    hide Recover, Recovers;
    RecoverBegins(l, cache);
    if l.backfills > 0 { RecoverBegins(l.(backfills := l.backfills - 1), cache); }
  }

  // ---------------------------------------------------------------- how it ends

  /** The messages, in order, under one session and on one socket. */
  function On(messages: seq<nat>, session: Id, socket: nat): (es: seq<Emission>)
    ensures |es| == |messages|
  {
    seq(|messages|, i requires 0 <= i < |messages| => Emission(messages[i], session, socket))
  }

  /** The lifecycle's own socket is up under this session and token, and all that was queued went out on it. */
  predicate Reached(s: State, after: State, session: Id, token: Token) {
    var n := |s.link.sockets|;
    && CanSend(after.link) && after.link.session == Some(session) && after.link.token == Some(token)
    && after.link.socket == Some(n) && after.link.live == {n} && after.link.sockets == s.link.sockets + [token]
    && !after.link.recovering
    && after.mail == s.mail.(emitted := s.mail.emitted + On(s.mail.pending, session, n), pending := [])
    && after.button == s.button
  }

  /** A lifecycle whose session and token are in connects, and its socket's first word empties the queue. */
  lemma ConnectReaches(s: State, session: Id, token: Token)
    requires s.link.epoch in s.link.pieces && s.link.pieces[s.link.epoch].Connecting? && s.link.scriptLoaded
    requires s.link.session == Some(session) && s.link.token == Some(token) && s.link.socket.None? && s.link.live == {}
    ensures var events := [ConnectRuns(s.link.epoch), SocketConnects(|s.link.sockets|)];
      Runnable(s, events) && Reached(s, Run(s, events), session, token)
  {
    var n, up := |s.link.sockets|, Next(s, ConnectRuns(s.link.epoch));
    assert up.link.live == {n} && up.link.socket == Some(n);
    RunTwo(s, ConnectRuns(s.link.epoch), SocketConnects(n));
    var connected := up.link.(connected := true);
    assert Emitted(connected, s.mail.pending) == On(s.mail.pending, session, n);
    assert s.mail.emitted + On([], session, n) == s.mail.emitted;
  }

  lemma RunTwo(s: State, one: Event, two: Event)
    requires Enabled(s, one) && Enabled(Next(s, one), two)
    ensures Runnable(s, [one, two]) && Run(s, [one, two]) == Next(Next(s, one), two)
  {
    RunThen(Next(s, one), two, []);
    RunThen(s, one, [two]);
    assert [one] + [two] == [one, two] && [two] + [] == [two];
  }

  lemma RunThen(s: State, one: Event, rest: seq<Event>)
    requires Enabled(s, one) && Runnable(Next(s, one), rest)
    ensures Runnable(s, [one] + rest) && Run(s, [one] + rest) == Run(Next(s, one), rest)
  {
    assert ([one] + rest)[1..] == rest;
  }

  /** What is still to happen to a lifecycle just begun: the server's answer, if it was asked, and the connect. */
  function Rest(resumed: bool, epoch: nat, n: nat, answer: InitAnswer, cache: Cache): seq<Event> {
    (if resumed then [] else [InitArrives(epoch, Some(answer), cache)]) + [ConnectRuns(epoch), SocketConnects(n)]
  }

  /** It reaches the cached session, or the one the server answers with, which is then cached. */
  lemma LifecycleReaches(s: State, before: Link, recovery: bool, cache: Cache, answer: InitAnswer)
    requires Began(before, s.link, before.epoch, recovery, cache) && before.scriptLoaded
    requires before.socket.None? && before.live == {} && answer.token.Some?
    ensures var resumed := Resumable(before.stored, cache);
      var events := Rest(resumed, before.epoch, |before.sockets|, answer, cache);
      Runnable(s, events) &&
      var after := Run(s, events);
      if resumed then Reached(s, after, before.stored.value.session.value, before.stored.value.token.value)
      else && Reached(s, after, answer.session, answer.token.value)
           && after.link.stored == if cache.saves then Some(Blob(Some(answer.session), answer.token)) else before.stored
  {
    if Resumable(before.stored, cache) {
      ConnectReaches(s, before.stored.value.session.value, before.stored.value.token.value);
      assert Rest(true, before.epoch, |before.sockets|, answer, cache)
        == [ConnectRuns(before.epoch), SocketConnects(|before.sockets|)];
    } else {
      var heard := Next(s, InitArrives(before.epoch, Some(answer), cache));
      AnswerIsAdopted(s, recovery, answer, cache);
      ConnectReaches(heard, answer.session, answer.token.value);
      ConnectKeepsCache(heard, answer.session, answer.token.value);
      RunThen(s, InitArrives(before.epoch, Some(answer), cache),
              [ConnectRuns(before.epoch), SocketConnects(|before.sockets|)]);
    }
  }

  lemma AnswerIsAdopted(s: State, recovery: bool, answer: InitAnswer, cache: Cache)
    requires s.link.epoch in s.link.pieces && s.link.pieces[s.link.epoch] == Asking(recovery) && s.link.socket.None?
    ensures var e := InitArrives(s.link.epoch, Some(answer), cache);
      && Enabled(s, e)
      && Next(s, e) == s.(link := s.link.(session := Some(answer.session), token := answer.token,
           pieces := s.link.pieces[s.link.epoch := Connecting],
           stored := if cache.saves then Some(Blob(Some(answer.session), answer.token)) else s.link.stored))
  {
    assert (s.link.pieces - {s.link.epoch})[s.link.epoch := Connecting] == s.link.pieces[s.link.epoch := Connecting];
  }

  lemma ConnectKeepsCache(s: State, session: Id, token: Token)
    requires s.link.epoch in s.link.pieces && s.link.pieces[s.link.epoch].Connecting? && s.link.scriptLoaded
    requires s.link.session == Some(session) && s.link.token == Some(token) && s.link.socket.None? && s.link.live == {}
    requires Runnable(s, [ConnectRuns(s.link.epoch), SocketConnects(|s.link.sockets|)])
    ensures Run(s, [ConnectRuns(s.link.epoch), SocketConnects(|s.link.sockets|)]).link.stored == s.link.stored
  {
    RunTwo(s, ConnectRuns(s.link.epoch), SocketConnects(|s.link.sockets|));
  }

  // ---------------------------------------------------------------- the three ways to a conversation

  function Sends(m: nat): seq<Event> {
    if m == 0 then [] else [SendMessage] + Sends(m - 1)
  }

  function Numbers(first: nat, m: nat): (ns: seq<nat>) {
    seq(m, i requires 0 <= i < m => first + i)
  }

  /** Without a connected socket, messages queue in the order they are sent. */
  lemma {:induction false} SendsQueue(s: State, m: nat)
    requires !CanSend(s.link)
    ensures Runnable(s, Sends(m))
    ensures Run(s, Sends(m))
      == s.(mail := s.mail.(sent := s.mail.sent + m, pending := s.mail.pending + Numbers(s.mail.sent, m)))
    decreases m
  {
    if m == 0 {
      assert s.mail.pending + Numbers(s.mail.sent, 0) == s.mail.pending;
    } else {
      var next := Next(s, SendMessage);
      SendsQueue(next, m - 1);
      RunThen(s, SendMessage, Sends(m - 1));
      assert s.mail.pending + [s.mail.sent] + Numbers(s.mail.sent + 1, m - 1)
        == s.mail.pending + Numbers(s.mail.sent, m);
    }
  }

  lemma {:induction false} RunsCompose(s: State, first: seq<Event>, second: seq<Event>)
    requires Runnable(s, first) && Runnable(Run(s, first), second)
    ensures Runnable(s, first + second) && Run(s, first + second) == Run(Run(s, first), second)
    decreases |first|
  {
    if first == [] {
      assert first + second == second;
    } else {
      assert (first + second)[1..] == first[1..] + second;
      RunsCompose(Next(s, first[0]), first[1..], second);
    }
  }

  /** From a page load, with the cache expired or whole and however many messages typed before the script is in. */
  function PageLoad(cached: Option<Blob>, m: nat, answer: InitAnswer, cache: Cache): seq<Event> {
    Sends(m) + ([ScriptArrives(true, cache)] + Rest(Resumable(cached, cache), 0, 0, answer, cache))
  }

  /**
   A page load ends connected: on the cached session and token when the cache is whole and not expired, else on
   those the server answers with; and every message typed meanwhile goes out on that socket, in order.
   */
  lemma PageLoadReachesItsSession(cached: Option<Blob>, m: nat, answer: InitAnswer, cache: Cache)
    requires answer.token.Some?
    ensures Runnable(Start(cached), PageLoad(cached, m, answer, cache))
    ensures var s, resumed := Run(Start(cached), PageLoad(cached, m, answer, cache)), Resumable(cached, cache);
      var session, token := if resumed then cached.value.session.value else answer.session,
        if resumed then cached.value.token.value else answer.token.value;
      && CanSend(s.link) && s.link.session == Some(session) && s.link.token == Some(token) && s.link.sockets == [token]
      && s.mail == Mail(m, [], On(Numbers(0, m), session, 0), [])
      && s.link.stored == if resumed || !cache.saves then cached else Some(Blob(Some(session), Some(token)))
  {
    var start := Start(cached);
    SendsQueue(start, m);
    assert [] + Numbers(0, m) == Numbers(0, m);
    var typed := Run(start, Sends(m));
    ScriptBegins(typed, cache);
    var begun := Next(typed, ScriptArrives(true, cache));
    var rest := Rest(Resumable(cached, cache), 0, 0, answer, cache);
    hide Next, Runnable, Run, Began;
    LifecycleReaches(begun, typed.link.(booting := false, scriptLoaded := true), false, cache, answer);
    RunThen(typed, ScriptArrives(true, cache), rest);
    RunsCompose(start, Sends(m), [ScriptArrives(true, cache)] + rest);
    if Resumable(cached, cache) {
      assert rest == [ConnectRuns(0), SocketConnects(0)];
      ResumedKeepsCache(begun, typed.link.(booting := false, scriptLoaded := true), cache);
    }
    var session := if Resumable(cached, cache) then cached.value.session.value else answer.session;
    assert [] + On(Numbers(0, m), session, 0) == On(Numbers(0, m), session, 0);
  }

  lemma ScriptBegins(s: State, cache: Cache)
    requires s.link.booting
    ensures var begun := Next(s, ScriptArrives(true, cache));
      && Began(s.link.(booting := false, scriptLoaded := true), begun.link, 0, false, cache)
      && begun.mail == s.mail && begun.button == s.button && begun.link.sockets == s.link.sockets
  {
    ScriptResumesCache(s.link, cache);
  }

  lemma ResumedKeepsCache(s: State, before: Link, cache: Cache)
    requires Resumable(before.stored, cache) && Began(before, s.link, before.epoch, false, cache)
    requires before.scriptLoaded && before.socket.None? && before.live == {}
    ensures var events := [ConnectRuns(before.epoch), SocketConnects(|before.sockets|)];
      Runnable(s, events) && Run(s, events).link.stored == before.stored
  {
    ConnectReaches(s, s.link.session.value, s.link.token.value);
    ConnectKeepsCache(s, s.link.session.value, s.link.token.value);
  }

  lemma RefusedBegins(b: Bound, s: State, k: nat, cache: Cache)
    requires Inv(b, s) && k in s.link.live && !s.link.recovering
    ensures var refused := Next(s, SocketRefuses(k, cache));
      && Began(GivenUp(s.link, cache), refused.link, s.link.epoch + 1, true, cache)
      && GivenUp(s.link, cache).live == {} && s.link.scriptLoaded
      && refused.mail == s.mail && refused.button == s.button && refused.link.sockets == s.link.sockets
  {
    ForbiddenAnswersRecover(s.link, k, cache);
  }

  /**
   A recovery from any state whose own socket is refused ends connected again, and what was queued goes out:
   on the cached session when the cache could not be cleared and may be resumed, else on the server's answer.
   */
  lemma RecoveryReaches(b: Bound, s: State, k: nat, answer: InitAnswer, cache: Cache)
    requires Inv(b, s) && k in s.link.live && !s.link.recovering && answer.token.Some?
    ensures var resumed := !cache.clears && Resumable(s.link.stored, cache);
      var events := [SocketRefuses(k, cache)] + Rest(resumed, s.link.epoch + 1, |s.link.sockets|, answer, cache);
      Runnable(s, events) &&
      if resumed then
        Reached(s, Run(s, events), s.link.stored.value.session.value, s.link.stored.value.token.value)
      else Reached(s, Run(s, events), answer.session, answer.token.value)
  {
    var resumed, refused := !cache.clears && Resumable(s.link.stored, cache), Next(s, SocketRefuses(k, cache));
    var rest := Rest(resumed, s.link.epoch + 1, |s.link.sockets|, answer, cache);
    RefusedBegins(b, s, k, cache);
    LifecycleReaches(refused, GivenUp(s.link, cache), true, cache, answer);
    RunThen(s, SocketRefuses(k, cache), rest);
    hide Inv, Began, Next, Runnable, Run, Rest, Reached;
    if resumed {
      SameReach(s, refused, Run(refused, rest), s.link.stored.value.session.value, s.link.stored.value.token.value);
    } else {
      SameReach(s, refused, Run(refused, rest), answer.session, answer.token.value);
    }
  }

  lemma SameReach(s: State, r: State, after: State, session: Id, token: Token)
    requires r.mail == s.mail && r.button == s.button && r.link.sockets == s.link.sockets
    ensures Reached(r, after, session, token) <==> Reached(s, after, session, token)
  {
  }

  /**
   A granted conversation ends connected on what was granted, with the queue of the old one dropped, the
   button free again, and nothing new out.
   */
  lemma GrantedConversationReaches(b: Bound, s: State, g: Grant, cache: Cache)
    requires Inv(b, s) && s.button.asked > 0
    ensures var n, events := |s.link.sockets|, [NewArrives(Granted(g), cache), SocketConnects(|s.link.sockets|)];
      Runnable(s, events) &&
      var after := Run(s, events);
      && CanSend(after.link) && after.link.session == Some(g.session) && after.link.token == Some(g.token)
      && after.link.socket == Some(n) && after.link.live == {n} && after.link.sockets == s.link.sockets + [g.token]
      && after.link.stored == (if cache.saves then Some(Blob(Some(g.session), Some(g.token))) else s.link.stored)
      && after.mail == s.mail.(pending := [], dropped := s.mail.dropped + s.mail.pending)
      && after.button == Button(false, s.button.lastNew, 0)
  {
    var n, granted := |s.link.sockets|, Next(s, NewArrives(Granted(g), cache));
    assert granted.link.live == {n} && granted.link.socket == Some(n);
    RunTwo(s, NewArrives(Granted(g), cache), SocketConnects(n));
  }

  /** A dropped socket queues what is sent until it is back, and then sends it. */
  lemma DropQueuesUntilBack(b: Bound, s: State, k: nat, m: nat)
    requires Inv(b, s) && k in s.link.live && s.link.session.Some?
    ensures var events := [SocketDrops(k)] + (Sends(m) + [SocketConnects(k)]);
      Runnable(s, events) &&
      Run(s, events).mail == s.mail.(sent := s.mail.sent + m, pending := [],
        emitted := s.mail.emitted + On(s.mail.pending + Numbers(s.mail.sent, m), s.link.session.value, k))
  {
    var dropped := Next(s, SocketDrops(k));
    SendsQueue(dropped, m);
    var typed := Run(dropped, Sends(m));
    ComesBack(typed, k, s.link.session.value);
    hide Next, Runnable, Run, Inv;
    RunThen(typed, SocketConnects(k), []);
    assert [SocketConnects(k)] + [] == [SocketConnects(k)];
    RunsCompose(dropped, Sends(m), [SocketConnects(k)]);
    RunThen(s, SocketDrops(k), Sends(m) + [SocketConnects(k)]);
  }

  lemma ComesBack(s: State, k: nat, session: Id)
    requires s.link.socket == Some(k) && k in s.link.live && s.link.session == Some(session)
    ensures Enabled(s, SocketConnects(k)) && Runnable(Next(s, SocketConnects(k)), [])
    ensures Run(Next(s, SocketConnects(k)), []).mail
      == s.mail.(pending := [], emitted := s.mail.emitted + On(s.mail.pending, session, k))
  {
    assert Emitted(s.link.(connected := true), s.mail.pending) == On(s.mail.pending, session, k);
    assert s.mail.emitted + On([], session, k) == s.mail.emitted;
  }

  /** A message goes out at once exactly when a session, a socket and the flag are there; else it queues last. */
  lemma SendGoesOutExactly(s: State)
    ensures var after, n := Next(s, SendMessage), s.mail.sent;
      if s.link.session.Some? && s.link.socket.Some? && s.link.connected then
        after == s.(mail := s.mail.(sent := n + 1,
                      emitted := s.mail.emitted + [Emission(n, s.link.session.value, s.link.socket.value)]))
      else after == s.(mail := s.mail.(sent := n + 1, pending := s.mail.pending + [n]))
  {
  }

  // ---------------------------------------------------------------- the button, the history, the cache

  /** A tap counts unless a request is out or the last tap that counted was under a second and a half ago. */
  predicate Counts(b: Button, now: int) {
    !b.startingNew && (b.lastNew.Some? ==> now - b.lastNew.value >= 1500)
  }

  /** The server is asked exactly for a tap that counts while there is a token to ask with. */
  lemma TapAsksExactly(s: State, now: int)
    ensures var after := Next(s, TapNew(now));
      && after == s.(button := after.button)
      && (after.button.asked == s.button.asked + 1 <==> Counts(s.button, now) && s.link.token.Some?)
      && (after.button.asked != s.button.asked + 1 ==>
            after.button == if Counts(s.button, now) then s.button.(lastNew := Some(now)) else s.button)
      && (after.button.asked == s.button.asked + 1 ==> after.button.startingNew && after.button.lastNew == Some(now))
  {
  }

  /** The times of the taps that asked the server. */
  ghost function AskedAt(s: State, events: seq<Event>): (times: seq<int>)
    requires Runnable(s, events)
    decreases |events|
  {
    if events == [] then []
    else
      var after := Next(s, events[0]);
      (if events[0].TapNew? && after.button.asked > s.button.asked then [events[0].now] else [])
        + AskedAt(after, events[1..])
  }

  predicate Spaced(last: Option<int>, times: seq<int>) {
    && (times != [] && last.Some? ==> times[0] >= last.value + 1500)
    && forall i :: 0 <= i < |times| - 1 ==> times[i + 1] >= times[i] + 1500
  }

  /** However often it is tapped, and whatever happens in between, two requests are a second and a half apart. */
  lemma {:induction false} RequestsAreSpaced(s: State, events: seq<Event>)
    requires Runnable(s, events)
    ensures Spaced(s.button.lastNew, AskedAt(s, events))
    decreases |events|
  {
    if events != [] {
      var after := Next(s, events[0]);
      RequestsAreSpaced(after, events[1..]);
      if events[0].TapNew? { TapAsksExactly(s, events[0].now); }
    }
  }

  /** A join asks for the history exactly when it is wanted and there is a session and a token to ask with. */
  lemma JoinBackfillsExactly(l: Link, k: nat, wanted: bool)
    ensures var after := NextLink(l, SocketJoined(k, wanted));
      after == l.(backfills := l.backfills + if wanted && l.token.Some? && l.session.Some? then 1 else 0)
  {
  }

  /** Whatever session and token are held when the widget saves are what the next page load resumes. */
  lemma SavedSessionIsResumed(s: State, cache: Cache, answer: InitAnswer, m: nat)
    requires s.link.session.Some? && s.link.token.Some? && cache.usable && answer.token.Some?
    ensures var cached := Next(s, Save).link.stored;
      Runnable(Start(cached), PageLoad(cached, m, answer, cache)) &&
      var back := Run(Start(cached), PageLoad(cached, m, answer, cache));
      back.link.session == s.link.session && back.link.token == s.link.token
  {
    PageLoadReachesItsSession(Next(s, Save).link.stored, m, answer, cache);
  }
}
