/** The widget object, its methods run piece by piece: each leaves the fields as `WidgetModel` says its step does. */
module WidgetClient {
  import opened Wrappers
  import opened WidgetModel

  /** What a refused handshake says. */
  datatype ConnectError = TokenExpired | TokenInvalid | Transient

  class Widget {
    var socket: Option<nat>
    var token: Option<Token>
    var sessionId: Option<Id>
    var sessionEpoch: nat
    var recovering: bool
    var connected: bool
    var startingNew: bool
    var lastNewConversationAt: Option<int>
    var pendingMessages: seq<nat>
    /** Local storage. */
    var stored: Option<Blob>
    /** What waits for an answer. */
    var booting: bool
    var scriptLoaded: bool
    var pieces: map<nat, Piece>
    var backfills: nat
    var asked: nat
    /** Sockets opened so far, and what went where. */
    var sockets: seq<Token>
    var live: set<nat>
    var sent: nat
    var emitted: seq<Emission>
    ghost var dropped: seq<nat>

    constructor (cached: Option<Blob>)
      ensures View() == Start(cached)
    {
      socket, token, sessionId, sessionEpoch := None, None, if cached.Some? then cached.value.session else None, 0;
      recovering, connected, startingNew, lastNewConversationAt, pendingMessages := false, false, false, None, [];
      stored, booting, scriptLoaded, pieces, backfills, asked := cached, true, false, map[], 0, 0;
      sockets, live, sent, emitted, dropped := [], {}, 0, [], [];
    }

    ghost function LinkView(): Link
      reads this
    {
      Link(socket, token, sessionId, sessionEpoch, recovering, connected, stored, booting, scriptLoaded, pieces,
        backfills, sockets, live)
    }

    ghost function ButtonView(): Button
      reads this
    {
      Button(startingNew, lastNewConversationAt, asked)
    }

    ghost function MailView(): Mail
      reads this
    {
      Mail(sent, pendingMessages, emitted, dropped)
    }

    ghost function View(): State
      reads this
    {
      State(LinkView(), ButtonView(), MailView())
    }

    // -------------------------------------------------------------- sending

    predicate CanSendMessages()
      reads this
    {
      sessionId.Some? && socket.Some? && connected
    }

    method EmitOutboundMessage(message: nat) returns (ok: bool)
      modifies this`emitted
      ensures ok == CanSendMessages()
      ensures emitted == old(emitted) + if ok then Emitted(LinkView(), [message]) else []
    {
      if !CanSendMessages() { return false; }
      emitted := emitted + [Emission(message, sessionId.value, socket.value)];
      return true;
    }

    method FlushPendingMessages()
      modifies this`pendingMessages, this`emitted
      ensures MailView() == Flush(LinkView(), old(MailView()))
    {
      if !CanSendMessages() || pendingMessages == [] { return; }
      var queued := pendingMessages;
      ghost var before := emitted;
      pendingMessages := [];
      for i := 0 to |queued|
        invariant CanSendMessages() && pendingMessages == []
        invariant emitted == before + Emitted(LinkView(), queued[..i])
      {
        var ok := EmitOutboundMessage(queued[i]);
        assert Emitted(LinkView(), queued[..i + 1])
          == Emitted(LinkView(), queued[..i]) + Emitted(LinkView(), [queued[i]]);
      }
      assert queued[..|queued|] == queued;
    }

    method SendMessage()
      modifies this`sent, this`pendingMessages, this`emitted
      ensures MailView() == WidgetModel.Send(LinkView(), old(MailView()))
    {
      var message := sent;
      sent := sent + 1;
      var ok := EmitOutboundMessage(message);
      if !ok { pendingMessages := pendingMessages + [message]; }
    }

    // -------------------------------------------------------------- the lifecycle

    method TearDownSocket()
      modifies this`socket, this`live
      ensures LinkView() == TearDown(old(LinkView()))
    {
      if socket.Some? { live := live - {socket.value}; }
      socket := None;
    }

    method SaveSession(saves: bool)
      modifies this`stored
      ensures LinkView() == Saved(old(LinkView()), saves)
    {
      if saves { stored := Some(Blob(sessionId, token)); }
    }

    method InitSession(epoch: nat, recovery: bool, cache: Cache)
      modifies this`sessionId, this`token, this`pieces
      ensures LinkView() == WidgetModel.InitSession(old(LinkView()), epoch, recovery, cache)
    {
      if stored.Some? && stored.value.session.Some? && stored.value.token.Some? && cache.usable {
        sessionId, token := stored.value.session, stored.value.token;
        pieces := pieces[epoch := Connecting];
        return;
      }
      pieces := pieces[epoch := Asking(recovery)];
    }

    method RecoverWidgetSession(cache: Cache)
      modifies this`recovering, this`sessionEpoch, this`socket, this`live, this`stored, this`token, this`sessionId,
        this`pieces
      ensures LinkView() == Recover(old(LinkView()), cache)
    {
      if recovering { return; }
      TearDownSocket();
      recovering := true;
      sessionEpoch := sessionEpoch + 1;
      if cache.clears { stored := None; }
      token := None;
      InitSession(sessionEpoch, true, cache);
    }

    method ConnectSocketIO(epoch: nat)
      modifies this`socket, this`live, this`sockets
      ensures LinkView() == ConnectSocket(old(LinkView()), epoch)
    {
      if epoch != sessionEpoch { return; }
      if !scriptLoaded { return; }
      if token.None? { return; }
      TearDownSocket();
      socket := Some(|sockets|);
      live := live + {|sockets|};
      sockets := sockets + [token.value];
    }

    method AdoptNewConversation(g: Grant, cache: Cache)
      modifies this`recovering, this`sessionEpoch, this`socket, this`live, this`sockets, this`stored, this`token,
        this`sessionId,
               this`pendingMessages, this`dropped
      ensures LinkView() == Adopt(old(LinkView()), g, cache)
      ensures MailView() == old(MailView()).(pending := [], dropped := old(dropped) + old(pendingMessages))
    {
      SwapSession(g, cache);
      dropped := dropped + pendingMessages;
      pendingMessages := [];
      ConnectSocketIO(sessionEpoch);
    }

    /** A fresh lifecycle: anything in flight is superseded, the old socket torn down, the new session in. */
    method SwapSession(g: Grant, cache: Cache)
      modifies this`recovering, this`sessionEpoch, this`socket, this`live, this`stored, this`token, this`sessionId
      ensures var l := old(LinkView());
        LinkView() == Saved(With(TearDown(l).(epoch := l.epoch + 1, recovering := false), g.session, Some(g.token)),
          cache.saves)
    {
      sessionEpoch := sessionEpoch + 1;
      recovering := false;
      TearDownSocket();
      sessionId, token := Some(g.session), Some(g.token);
      SaveSession(cache.saves);
    }

    method StartNewConversation(now: int)
      modifies this`startingNew, this`lastNewConversationAt, this`asked
      ensures ButtonView() == Tap(old(ButtonView()), token, now)
    {
      if startingNew { return; }
      if lastNewConversationAt.Some? && now - lastNewConversationAt.value < 1500 { return; }
      lastNewConversationAt := Some(now);
      startingNew := true;
      if token.None? {
        startingNew := false;
        return;
      }
      asked := asked + 1;
    }

    // -------------------------------------------------------------- what arrives

    method OnScript(ok: bool, cache: Cache)
      modifies this`booting, this`scriptLoaded, this`sessionId, this`token, this`pieces
      ensures LinkView() == NextLink(old(LinkView()), ScriptArrives(ok, cache))
    {
      booting := false;
      if ok {
        scriptLoaded := true;
        InitSession(0, false, cache);
      }
    }

    method OnInitAnswer(epoch: nat, answer: Option<InitAnswer>, cache: Cache)
      requires epoch in pieces && pieces[epoch].Asking?
      modifies this`pieces, this`recovering, this`sessionId, this`token, this`stored, this`pendingMessages, this`emitted
      ensures LinkView() == NextLink(old(LinkView()), InitArrives(epoch, answer, cache))
      ensures MailView() == NextMail(old(LinkView()), old(MailView()), InitArrives(epoch, answer, cache))
    {
      var recovery := pieces[epoch].recovery;
      pieces := pieces - {epoch};
      if answer.None? {
        if recovery { recovering := false; }
        return;
      }
      if epoch == sessionEpoch { TakeSession(answer.value, cache); }
      pieces := pieces[epoch := Connecting];
    }

    method TakeSession(a: InitAnswer, cache: Cache)
      modifies this`sessionId, this`token, this`stored, this`pendingMessages, this`emitted
      ensures LinkView() == Saved(With(old(LinkView()), a.session, a.token), cache.saves)
      ensures MailView() == Flush(With(old(LinkView()), a.session, a.token), old(MailView()))
    {
      sessionId, token := Some(a.session), a.token;
      SaveSession(cache.saves);
      FlushPendingMessages();
    }

    method OnConnectTurn(epoch: nat)
      requires epoch in pieces && pieces[epoch].Connecting?
      modifies this`pieces, this`socket, this`live, this`sockets
      ensures LinkView() == NextLink(old(LinkView()), ConnectRuns(epoch))
    {
      pieces := pieces - {epoch};
      ConnectSocketIO(epoch);
    }

    method OnSocketConnect()
      modifies this`connected, this`recovering, this`pendingMessages, this`emitted
      ensures forall k :: LinkView() == NextLink(old(LinkView()), SocketConnects(k))
      ensures forall k :: MailView() == NextMail(old(LinkView()), old(MailView()), SocketConnects(k))
    {
      connected := true;
      recovering := false;
      FlushPendingMessages();
    }

    method OnConnectError(k: nat, code: ConnectError, cache: Cache)
      modifies this`live, this`recovering, this`sessionEpoch, this`socket, this`stored, this`token, this`sessionId,
        this`pieces
      ensures LinkView() == match code
        case TokenExpired => NextLink(old(LinkView()), SocketRefuses(k, cache))
        case TokenInvalid => NextLink(old(LinkView()), SocketInvalid(k))
        case Transient => old(LinkView())
    {
      if code.TokenExpired? {
        RecoverWidgetSession(cache);
        return;
      }
      if code.TokenInvalid? { live := live - {k}; }
    }

    method OnSessionJoined(backfill: bool)
      modifies this`backfills, this`pendingMessages, this`emitted
      ensures forall k :: LinkView() == NextLink(old(LinkView()), SocketJoined(k, backfill))
      ensures forall k :: MailView() == NextMail(old(LinkView()), old(MailView()), SocketJoined(k, backfill))
    {
      FlushPendingMessages();
      if backfill && token.Some? && sessionId.Some? { backfills := backfills + 1; }
    }

    method OnHistory(unauthorized: bool, cache: Cache)
      requires backfills > 0
      modifies this`backfills, this`recovering, this`sessionEpoch, this`socket, this`live, this`stored, this`token,
        this`sessionId, this`pieces
      ensures LinkView() == NextLink(old(LinkView()), HistoryArrives(unauthorized, cache))
    {
      backfills := backfills - 1;
      if unauthorized { RecoverWidgetSession(cache); }
    }

    method OnNewConversationAnswer(answer: NewAnswer, cache: Cache)
      requires asked > 0
      modifies this`startingNew, this`asked, this`recovering, this`sessionEpoch, this`socket, this`live, this`sockets,
        this`stored,
               this`token, this`sessionId, this`pieces, this`pendingMessages, this`dropped
      ensures LinkView() == AnswerNew(old(LinkView()), answer, cache)
      ensures MailView() == if answer.Granted?
        then old(MailView()).(pending := [], dropped := old(dropped) + old(pendingMessages)) else old(MailView())
      ensures ButtonView() == old(ButtonView()).(startingNew := false, asked := old(asked) - 1)
    {
      TakeAnswer(answer, cache);
      asked := asked - 1;
      startingNew := false;
    }

    method TakeAnswer(answer: NewAnswer, cache: Cache)
      modifies this`recovering, this`sessionEpoch, this`socket, this`live, this`sockets, this`stored,
               this`token, this`sessionId, this`pieces, this`pendingMessages, this`dropped
      ensures LinkView() == AnswerNew(old(LinkView()), answer, cache)
      ensures MailView() == if answer.Granted?
        then old(MailView()).(pending := [], dropped := old(dropped) + old(pendingMessages)) else old(MailView())
    {
      if answer.Granted? {
        AdoptNewConversation(answer.grant, cache);
      } else if answer.Unauthorized? {
        RecoverWidgetSession(cache);
      }
    }

    method Dispatch(e: Event)
      requires Enabled(View(), e)
      modifies this
      ensures View() == Next(old(View()), e)
    {
      if e.InitArrives? || e.NewArrives? || e.SocketConnects? || e.SocketJoined? {
        DispatchAnswer(e);
        return;
      }
      if e.SocketRefuses? || e.SocketDrops? || e.SocketInvalid? || e.HistoryArrives? {
        DispatchLoss(e);
        return;
      }
      match e {
        case ScriptArrives(ok, cache) => OnScript(ok, cache);
        case ConnectRuns(epoch) => OnConnectTurn(epoch);
        case TapNew(now) => StartNewConversation(now);
        case SendMessage => SendMessage();
        case Save => SaveSession(true);
        case _ =>
      }
    }

    /** The events that lose a connection or a session. */
    method DispatchLoss(e: Event)
      requires Enabled(View(), e) && (e.SocketRefuses? || e.SocketDrops? || e.SocketInvalid? || e.HistoryArrives?)
      modifies this
      ensures View() == Next(old(View()), e)
    {
      match e {
        case SocketRefuses(_, cache) => RecoverWidgetSession(cache);
        case SocketDrops(_) => connected := false;
        case SocketInvalid(k) => OnConnectError(k, TokenInvalid, Cache(false, false, false));
        case HistoryArrives(unauthorized, cache) => OnHistory(unauthorized, cache);
        case _ =>
      }
    }

    /** The events that may empty the queue. */
    method DispatchAnswer(e: Event)
      requires Enabled(View(), e) && (e.InitArrives? || e.NewArrives? || e.SocketConnects? || e.SocketJoined?)
      modifies this
      ensures View() == Next(old(View()), e)
    {
      match e {
        case InitArrives(epoch, answer, cache) => OnInitAnswer(epoch, answer, cache);
        case SocketConnects(_) => OnSocketConnect();
        case SocketJoined(_, backfill) => OnSessionJoined(backfill);
        case NewArrives(answer, cache) => OnNewConversationAnswer(answer, cache);
        case _ =>
      }
    }
  }
}
