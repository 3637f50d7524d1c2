/**
 The widget's session lifecycle: the initial connect, recovery and "new conversation" each run in pieces
 between awaits, and the pieces of all of them interleave with socket events and the visitor's messages.
 A piece is one step; the server's answers are arbitrary, but a token it hands out is bound to the session
 handed out with it.
 */
module WidgetModel {
  import opened Wrappers

  type Id = string
  type Token = string
  /** The session the server bound a token to. */
  type Bound = Token -> Id

  /** The cached session in local storage; it may lack a token. */
  datatype Blob = Blob(session: Option<Id>, token: Option<Token>)

  /** A lifecycle between its awaits: its init request is out, or its session is in and it is about to connect. */
  datatype Piece = Asking(recovery: bool) | Connecting

  /** One `message:send`, the session it names, and the socket it went out on. */
  datatype Emission = Emission(message: nat, session: Id, socket: nat)

  /**
   The widget's own fields, then what waits: `booting` while the script is on its way, `pieces` the lifecycle
   pieces by the epoch they were started in, `backfills` the history requests in flight. `sockets` holds the
   handshake token of every socket ever opened, by number, and `live` those that may still speak: not torn
   down, and not given up after the server called their token invalid.
   */
  datatype Link = Link(
    socket: Option<nat>, token: Option<Token>, session: Option<Id>, epoch: nat, recovering: bool, connected: bool,
    stored: Option<Blob>,
    booting: bool, scriptLoaded: bool, pieces: map<nat, Piece>, backfills: nat,
    sockets: seq<Token>, live: set<nat>)

  /** The "new conversation" button: its guard, its throttle, and the requests in flight. */
  datatype Button = Button(startingNew: bool, lastNew: Option<int>, asked: nat)

  /** Messages are numbered as sent. */
  datatype Mail = Mail(sent: nat, pending: seq<nat>, emitted: seq<Emission>, dropped: seq<nat>)

  datatype State = State(link: Link, button: Button, mail: Mail)

  /** A session and the token bound to it, as one server response carries them. */
  datatype Grant = Grant(session: Id, token: Token)
  /** An init response is not checked for its token, so it may come without one. */
  datatype InitAnswer = InitAnswer(session: Id, token: Option<Token>)
  datatype NewAnswer = Granted(grant: Grant) | Unauthorized | Refused

  /** What happens to the cache on the way: whether clearing works, and whether what is left may be resumed. */
  datatype Cache = Cache(clears: bool, usable: bool, saves: bool)

  datatype Event =
    | ScriptArrives(ok: bool, cache: Cache)
    | InitArrives(epoch: nat, init: Option<InitAnswer>, cache: Cache)
    | ConnectRuns(epoch: nat)
    | SocketConnects(k: nat)
    | SocketJoined(k: nat, backfill: bool)
    | SocketRefuses(k: nat, cache: Cache)
    | SocketDrops(k: nat)
    | SocketInvalid(k: nat)
    | HistoryArrives(unauthorized: bool, cache: Cache)
    | TapNew(now: int)
    | NewArrives(answer: NewAnswer, cache: Cache)
    | SendMessage
    | Save

  // ---------------------------------------------------------------- sending

  predicate CanSend(l: Link) {
    l.session.Some? && l.socket.Some? && l.connected
  }

  function Emitted(l: Link, messages: seq<nat>): (es: seq<Emission>)
    requires l.session.Some? && l.socket.Some?
    ensures |es| == |messages|
    ensures forall i :: 0 <= i < |es| ==> es[i] == Emission(messages[i], l.session.value, l.socket.value)
  {
    seq(|messages|, i requires 0 <= i < |messages| => Emission(messages[i], l.session.value, l.socket.value))
  }

  function Flush(l: Link, m: Mail): Mail {
    if !CanSend(l) || m.pending == [] then m
    else m.(emitted := m.emitted + Emitted(l, m.pending), pending := [])
  }

  function Send(l: Link, m: Mail): Mail {
    if CanSend(l) then m.(sent := m.sent + 1, emitted := m.emitted + Emitted(l, [m.sent]))
    else m.(sent := m.sent + 1, pending := m.pending + [m.sent])
  }

  // ---------------------------------------------------------------- the lifecycle, piece by piece

  function Waiting(l: Link, epoch: nat, p: Piece): Link {
    l.(pieces := l.pieces[epoch := p])
  }

  function TearDown(l: Link): Link {
    l.(live := if l.socket.Some? then l.live - {l.socket.value} else l.live, socket := None)
  }

  /** `_initSession` up to its first await: resume the cached session, or ask the server. */
  function InitSession(l: Link, epoch: nat, recovery: bool, cache: Cache): Link {
    if l.stored.Some? && l.stored.value.session.Some? && l.stored.value.token.Some? && cache.usable
    then Waiting(l.(session := l.stored.value.session, token := l.stored.value.token), epoch, Connecting)
    else Waiting(l, epoch, Asking(recovery))
  }

  function Recover(l: Link, cache: Cache): Link {
    if l.recovering then l
    else
      var t := TearDown(l);
      InitSession(t.(recovering := true, epoch := l.epoch + 1, stored := if cache.clears then None else l.stored,
        token := None),
                  l.epoch + 1, true, cache)
  }

  function Saved(l: Link, saves: bool): Link {
    if saves then l.(stored := Some(Blob(l.session, l.token))) else l
  }

  /** `_connectSocketIO`: a superseded caller stops here. */
  function ConnectSocket(l: Link, epoch: nat): Link {
    if epoch != l.epoch || !l.scriptLoaded || l.token.None? then l
    else
      var t := TearDown(l);
      t.(socket := Some(|l.sockets|), sockets := l.sockets + [l.token.value], live := t.live + {|l.sockets|})
  }

  function With(l: Link, session: Id, token: Option<Token>): Link {
    l.(session := Some(session), token := token)
  }

  /** An init response: a failure clears a recovery's guard, a superseded one is dropped, a current one is adopted. */
  function AnswerInit(l: Link, epoch: nat, recovery: bool, answer: Option<InitAnswer>, cache: Cache): Link {
    if answer.None? then (if recovery then l.(recovering := false) else l)
    else if epoch != l.epoch then Waiting(l, epoch, Connecting)
    else Waiting(Saved(With(l, answer.value.session, answer.value.token), cache.saves), epoch, Connecting)
  }

  function Adopt(l: Link, g: Grant, cache: Cache): Link {
    ConnectSocket(Saved(With(TearDown(l).(epoch := l.epoch + 1, recovering := false), g.session, Some(g.token)),
      cache.saves),
                  l.epoch + 1)
  }

  function AnswerNew(l: Link, answer: NewAnswer, cache: Cache): Link {
    match answer
    case Granted(g) => Adopt(l, g, cache)
    case Unauthorized => Recover(l, cache)
    case Refused => l
  }

  function Tap(b: Button, token: Option<Token>, now: int): Button {
    if b.startingNew || (b.lastNew.Some? && now - b.lastNew.value < 1500) then b
    else if token.None? then b.(lastNew := Some(now))
    else Button(true, Some(now), b.asked + 1)
  }

  predicate Enabled(s: State, e: Event) {
    match e
    case ScriptArrives(_, _) => s.link.booting
    case InitArrives(epoch, _, _) => epoch in s.link.pieces && s.link.pieces[epoch].Asking?
    case ConnectRuns(epoch) => epoch in s.link.pieces && s.link.pieces[epoch].Connecting?
    case SocketConnects(k) => k in s.link.live
    case SocketJoined(k, _) => k in s.link.live
    case SocketRefuses(k, _) => k in s.link.live
    case SocketDrops(k) => k in s.link.live
    case SocketInvalid(k) => k in s.link.live
    case HistoryArrives(_, _) => s.link.backfills > 0
    case NewArrives(_, _) => s.button.asked > 0
    case _ => true
  }

  function NextLink(l: Link, e: Event): Link
    requires e.InitArrives? ==> e.epoch in l.pieces && l.pieces[e.epoch].Asking?
    requires e.HistoryArrives? ==> l.backfills > 0
  {
    match e
    case ScriptArrives(ok, cache) =>
      if ok then InitSession(l.(booting := false, scriptLoaded := true), 0, false, cache) else l.(booting := false)
    case InitArrives(epoch, answer, cache) =>
      AnswerInit(l.(pieces := l.pieces - {epoch}), epoch, l.pieces[epoch].recovery, answer, cache)
    case ConnectRuns(epoch) => ConnectSocket(l.(pieces := l.pieces - {epoch}), epoch)
    case SocketConnects(_) => l.(connected := true, recovering := false)
    case SocketJoined(_, backfill) =>
      if backfill && l.token.Some? && l.session.Some? then l.(backfills := l.backfills + 1) else l
    case SocketRefuses(_, cache) => Recover(l, cache)
    case SocketDrops(_) => l.(connected := false)
    case SocketInvalid(k) => l.(live := l.live - {k})
    case HistoryArrives(unauthorized, cache) =>
      if unauthorized then Recover(l.(backfills := l.backfills - 1), cache) else l.(backfills := l.backfills - 1)
    case NewArrives(answer, cache) => AnswerNew(l, answer, cache)
    case Save => Saved(l, true)
    case _ => l
  }

  /** The queue goes out when a socket connects or joins, and where a current init ends; a new conversation drops it. */
  function NextMail(l: Link, m: Mail, e: Event): Mail {
    match e
    case InitArrives(epoch, Some(a), _) => if epoch == l.epoch then Flush(With(l, a.session, a.token), m) else m
    case SocketConnects(_) => Flush(l.(connected := true), m)
    case SocketJoined(_, _) => Flush(l, m)
    case NewArrives(Granted(_), _) => m.(pending := [], dropped := m.dropped + m.pending)
    case SendMessage => Send(l, m)
    case _ => m
  }

  function NextButton(b: Button, token: Option<Token>, e: Event): Button
    requires e.NewArrives? ==> b.asked > 0
  {
    match e
    case TapNew(now) => Tap(b, token, now)
    case NewArrives(_, _) => b.(startingNew := false, asked := b.asked - 1)
    case _ => b
  }

  function Next(s: State, e: Event): State
    requires Enabled(s, e)
  {
    State(NextLink(s.link, e), NextButton(s.button, s.link.token, e), NextMail(s.link, s.mail, e))
  }

  /** A page just loaded: what the cache remembered of the session, and the script on its way. */
  function Start(cached: Option<Blob>): State {
    State(Link(None, None, if cached.Some? then cached.value.session else None, 0, false, false, cached, true, false,
      map[], 0, [], {}),
          Button(false, None, 0), Mail(0, [], [], []))
  }
}
