/**
 The gates in front of create, reschedule and cancel: a first call records what was asked and is refused;
 a later one passes only on the customer's word. One conversation's records; Redis answers each command or
 fails it; the text classifiers are parameters.
 */
module ConfirmationGates {
  import opened Wrappers
  import opened PendingRecords
  import WallClock

  datatype Role = User | Assistant | Other
  datatype Message = Message(role: Role, text: string)
  type History = seq<Message>

  /** White-space trimming, the prefix test for the runtime's own notes, and the vocabularies: all uninterpreted. */
  datatype Words = Words(
    trim: string -> string,
    internalNote: string -> bool,
    affirmative: string -> bool,
    chip: (string, string) -> bool,
    asksSummary: string -> bool,
    namesDateAndClock: (string, string) -> bool,
    namesClock: (string, string) -> bool,
    hasClock: string -> bool,
    squashed: string -> string,
    lower: string -> string)

  ghost predicate Trims(w: Words) {
    forall s :: w.trim(w.trim(s)) == w.trim(s)
  }

  datatype Kind = Create | Reschedule | Cancel
  datatype Pending = Pending(kind: Option<Kind>, startTime: string, attendeeName: string, serviceId: string,
                             bookingId: string, address: Option<string>)

  // ---------------------------------------------------------------- reading the conversation

  predicate CustomerLine(w: Words, m: Message) {
    m.role == User && !w.internalNote(w.trim(m.text))
  }

  /** The last line a customer wrote; -1 when there is none. */
  function LastLine(w: Words, h: History): (i: int)
    ensures -1 <= i < |h|
    ensures i >= 0 ==> CustomerLine(w, h[i])
    ensures forall j :: i < j < |h| ==> !CustomerLine(w, h[j])
  {
    if h == [] then -1
    else if CustomerLine(w, h[|h| - 1]) then |h| - 1
    else LastLine(w, h[..|h| - 1])
  }

  function LastUtterance(w: Words, h: History): string {
    if LastLine(w, h) < 0 then "" else w.trim(h[LastLine(w, h)].text)
  }

  predicate Question(w: Words, text: string) {
    '?' in text && w.asksSummary(text)
  }

  /** Before the last customer line, an assistant reply asked about this very date and clock. */
  predicate SummaryAsked(w: Words, h: History, startTime: string) {
    exists i :: 0 <= i < LastLine(w, h) && h[i].role == Assistant
      && Question(w, h[i].text) && w.namesDateAndClock(h[i].text, startTime)
  }

  predicate OccursAt(text: string, needle: string, i: int) {
    0 <= i <= |text| - |needle| && text[i..i + |needle|] == needle
  }

  predicate Contains(text: string, needle: string) {
    exists i :: 0 <= i <= |text| && OccursAt(text, needle, i)
  }

  /** One earlier assistant reply carried the question, the clock and the address together. */
  predicate SummaryCarried(w: Words, h: History, startTime: string, address: string) {
    var needle := w.trim(w.squashed(address));
    && w.hasClock(startTime) && needle != ""
    && exists i :: 0 <= i < LastLine(w, h) && h[i].role == Assistant && Question(w, h[i].text)
         && Contains(w.squashed(h[i].text), needle) && w.namesClock(h[i].text, startTime)
  }

  predicate MoveAgreed(w: Words, h: History, p: Pending, last: string) {
    if p.address.Some? then w.affirmative(last) && SummaryCarried(w, h, p.startTime, p.address.value)
    else w.chip(last, p.startTime) || (w.affirmative(last) && SummaryAsked(w, h, p.startTime))
  }

  // ---------------------------------------------------------------- the gates as functions

  /** A move's verdict carries the address the write must use. */
  datatype MoveAnswer = MoveAnswer(answer: Answer, address: Option<string>)

  datatype CreateArgs = CreateArgs(startTime: string, attendeeName: string, serviceId: string)
  datatype MoveArgs = MoveArgs(bookingId: string, newStartTime: string, address: Option<string>)

  /** The JavaScript `typeof x === 'string' && x.trim() ? x.trim() : undefined`. */
  function Stated(w: Words, address: Option<string>): (stated: Option<string>)
    ensures stated.Some? <==> address.Some? && w.trim(address.value) != ""
    ensures stated.Some? ==> stated.value == w.trim(address.value)
  {
    if address.Some? && w.trim(address.value) != "" then Some(w.trim(address.value)) else None
  }

  function CreateDetails(w: Words, zoned: WallClock.Zoned, a: CreateArgs): Pending {
    Pending(None, WallClock.Key(zoned, a.startTime), w.trim(a.attendeeName), a.serviceId, "", None)
  }

  function MoveDetails(w: Words, zoned: WallClock.Zoned, a: MoveArgs): Pending {
    Pending(Some(Reschedule), WallClock.Key(zoned, a.newStartTime), "", "", a.bookingId, Stated(w, a.address))
  }

  predicate SameService(one: string, two: string) {
    one == "" || two == "" || one == two
  }

  predicate SameCreate(w: Words, pending: Pending, asked: Pending) {
    pending.startTime == asked.startTime && w.lower(pending.attendeeName) == w.lower(asked.attendeeName)
    && SameService(pending.serviceId, asked.serviceId)
  }

  /** The customer's own word for this start: a slot chip, or a yes to an asked summary. */
  predicate Agreed(w: Words, h: History, startTime: string) {
    var last := LastUtterance(w, h);
    w.chip(last, startTime) || (w.affirmative(last) && SummaryAsked(w, h, startTime))
  }

  predicate CreateConfirmed(w: Words, pending: Option<Pending>, asked: Pending, h: History) {
    pending.Some? && SameCreate(w, pending.value, asked) && Agreed(w, h, pending.value.startTime)
  }

  /** An unstated address repeats the pending one; a different one is a different move. */
  predicate SameMove(pending: Pending, asked: Pending) {
    pending.kind == Some(Reschedule) && pending.bookingId == asked.bookingId && pending.startTime == asked.startTime
    && (asked.address.Some? ==> pending.address == asked.address)
  }

  predicate MoveConfirmed(w: Words, pending: Option<Pending>, asked: Pending, h: History) {
    pending.Some? && SameMove(pending.value, asked) && MoveAgreed(w, h, pending.value, LastUtterance(w, h))
  }

  function CreateGate(w: Words, zoned: WallClock.Zoned, pending: Option<Pending>, a: CreateArgs, h: History,
                      redis: Redis): (Option<Pending>, Answer) {
    if LastUtterance(w, h) == "" || !redis.canRead then (pending, Proceed)
    else if CreateConfirmed(w, pending, CreateDetails(w, zoned, a), h) then (Cleared(pending, redis), Proceed)
    else if redis.canWrite then (Some(CreateDetails(w, zoned, a)), Refuse)
    else (pending, Proceed)
  }

  function MoveGate(w: Words, zoned: WallClock.Zoned, pending: Option<Pending>, a: MoveArgs, h: History,
                    redis: Redis): (Option<Pending>, MoveAnswer) {
    var asked := MoveDetails(w, zoned, a);
    if LastUtterance(w, h) == "" || !redis.canRead then (pending, MoveAnswer(Proceed, None))
    else if MoveConfirmed(w, pending, asked, h) then
      (Cleared(pending, redis),
        MoveAnswer(Proceed, if asked.address.Some? then asked.address else pending.value.address))
    else if redis.canWrite then (Some(asked), MoveAnswer(Refuse, None))
    else (pending, MoveAnswer(Proceed, None))
  }

  /** A create while a move is pending is refused once: the record goes as it refuses. */
  function CreateWhileMoving(pending: Option<Pending>, redis: Redis): (Option<Pending>, Answer) {
    if !redis.canRead || pending.None? || pending.value.bookingId == "" then (pending, Proceed)
    else (Cleared(pending, redis), Refuse)
  }

  function CancelDetails(bookingId: string): Pending {
    Pending(Some(Cancel), "", "", "", bookingId, None)
  }

  predicate CancelConfirmed(w: Words, pending: Option<Pending>, asked: Pending, h: History) {
    pending.Some? && pending.value.kind == Some(Cancel) && pending.value.bookingId == asked.bookingId
    && (w.affirmative(LastUtterance(w, h)) || w.chip(LastUtterance(w, h), pending.value.startTime))
  }

  function CancelGate(w: Words, pending: Option<Pending>, bookingId: string, h: History,
                      redis: Redis): (Option<Pending>, Answer) {
    if LastUtterance(w, h) == "" || !redis.canRead then (pending, Proceed)
    else if CancelConfirmed(w, pending, CancelDetails(bookingId), h) then (Cleared(pending, redis), Proceed)
    else if redis.canWrite then (Some(CancelDetails(bookingId)), Refuse)
    else (pending, Proceed)
  }

  /** The run loop's reading of a pending move the customer agreed to. */
  function AgreedMove(w: Words, pending: Option<Pending>, h: History, canRead: bool): Option<MoveArgs> {
    var last := LastUtterance(w, h);
    if last == "" || !canRead || pending.None? then None
    else if pending.value.kind != Some(Reschedule) || pending.value.bookingId == "" then None
    else if !MoveAgreed(w, h, pending.value, last) then None
    else Some(MoveArgs(pending.value.bookingId, WallClock.WithSeconds(pending.value.startTime), pending.value.address))
  }

  predicate YesNeedsCreate(w: Words, pending: Option<Pending>, h: History, canRead: bool) {
    w.affirmative(LastUtterance(w, h)) && canRead && pending.Some? && SummaryAsked(w, h, pending.value.startTime)
  }

  // ---------------------------------------------------------------- the gates, remembered together

  datatype Event =
    | OnCreate(zoned: WallClock.Zoned, create: CreateArgs, h: History, redis: Redis)
    | OnMove(zoned: WallClock.Zoned, move: MoveArgs, h: History, redis: Redis)
    | OnCreateWhileMoving(redis: Redis)
    | OnCancel(bookingId: string, h: History, redis: Redis)
    | Expired(kind: Kind)

  /** What an event is to the create record, and to the move record. */
  function ToCreate(w: Words, e: Event): Call<Pending> {
    match e
    case OnCreate(zoned, a, h, redis) =>
      Ask(CreateDetails(w, zoned, a), LastUtterance(w, h) != "",
        p => CreateConfirmed(w, Some(p), CreateDetails(w, zoned, a), h), redis)
    case Expired(Create) => Lapse
    case _ => Unrelated
  }

  function ToMove(w: Words, e: Event): Call<Pending> {
    match e
    case OnMove(zoned, a, h, redis) =>
      Ask(MoveDetails(w, zoned, a), LastUtterance(w, h) != "",
        p => MoveConfirmed(w, Some(p), MoveDetails(w, zoned, a), h), redis)
    case OnCreateWhileMoving(redis) => Withdraw((p: Pending) => p.bookingId != "", redis)
    case Expired(Reschedule) => Lapse
    case _ => Unrelated
  }

  /** Each gate is one step of its record. */
  lemma GatesAreSteps(w: Words, pending: Option<Pending>, e: Event)
    ensures e.OnCreate? ==> CreateGate(w, e.zoned, pending, e.create, e.h, e.redis) == Step(pending, ToCreate(w, e))
    ensures e.OnMove? ==>
      var gate := MoveGate(w, e.zoned, pending, e.move, e.h, e.redis);
      (gate.0, gate.1.answer) == Step(pending, ToMove(w, e))
    ensures e.OnCreateWhileMoving? ==> CreateWhileMoving(pending, e.redis) == Step(pending, ToMove(w, e))
  {
  }

  lemma LineOf(w: Words, e: Event)
    ensures e.OnCreate? ==> ToCreate(w, e).hasLine == HasLine(w, e.h)
    ensures e.OnMove? ==> ToMove(w, e).hasLine == HasLine(w, e.h)
    ensures e.OnCancel? ==> ToCancel(w, e).hasLine == HasLine(w, e.h)
  {
    if e.OnCreate? || e.OnMove? || e.OnCancel? {
      LastLineIsFound(w, e.h);
    }
  }

  lemma LinesOf(w: Words, events: seq<Event>)
    ensures forall m :: 0 <= m < |events| && events[m].OnCreate? ==>
      ToCreate(w, events[m]).hasLine == HasLine(w, events[m].h)
    ensures forall m :: 0 <= m < |events| && events[m].OnMove? ==>
      ToMove(w, events[m]).hasLine == HasLine(w, events[m].h)
    ensures forall m :: 0 <= m < |events| && events[m].OnCancel? ==>
      ToCancel(w, events[m]).hasLine == HasLine(w, events[m].h)
  {
    forall m | 0 <= m < |events| { LineOf(w, events[m]); }
  }

  function CreateCalls(w: Words, events: seq<Event>): (calls: seq<Call<Pending>>)
    ensures |calls| == |events| && forall i :: 0 <= i < |calls| ==> calls[i] == ToCreate(w, events[i])
  {
    seq(|events|, i requires 0 <= i < |events| => ToCreate(w, events[i]))
  }

  function MoveCalls(w: Words, events: seq<Event>): (calls: seq<Call<Pending>>)
    ensures |calls| == |events| && forall i :: 0 <= i < |calls| ==> calls[i] == ToMove(w, events[i])
  {
    seq(|events|, i requires 0 <= i < |events| => ToMove(w, events[i]))
  }

  /** The newest user message that is not one of the runtime's own notes. */
  predicate IsLastLine(w: Words, h: History, i: int) {
    && 0 <= i < |h| && h[i].role == User && !w.internalNote(w.trim(h[i].text))
    && forall j :: i < j < |h| ==> h[j].role != User || w.internalNote(w.trim(h[j].text))
  }

  /** The customer's last line says something. */
  predicate HasLine(w: Words, h: History) {
    exists i :: 0 <= i < |h| && IsLastLine(w, h, i) && w.trim(h[i].text) != ""
  }

  /**
   In the conversation itself: the last customer line is a slot chip for this start, or a yes with an earlier
   assistant message that asked a question and named that date and clock.
   */
  predicate WordGiven(w: Words, h: History, startTime: string) {
    exists i :: 0 <= i < |h| && IsLastLine(w, h, i)
      && var said := w.trim(h[i].text);
         w.chip(said, startTime) || (w.affirmative(said) && AskedBefore(w, h, i, startTime))
  }

  predicate AskedBefore(w: Words, h: History, i: nat, startTime: string)
    requires i < |h|
  {
    exists q :: 0 <= q < i && h[q].role == Assistant && '?' in h[q].text && w.asksSummary(h[q].text)
      && w.namesDateAndClock(h[q].text, startTime)
  }

  lemma LastLineIsFound(w: Words, h: History)
    ensures forall i :: IsLastLine(w, h, i) <==> i == LastLine(w, h) && i >= 0
    ensures HasLine(w, h) <==> LastUtterance(w, h) != ""
  {
    var last := LastLine(w, h);
    assert last >= 0 ==> IsLastLine(w, h, last);
    forall i | IsLastLine(w, h, i) ensures i == last && i >= 0 {
      assert CustomerLine(w, h[i]);
    }
  }

  lemma WordIsGiven(w: Words, h: History, startTime: string)
    requires HasLine(w, h)
    ensures WordGiven(w, h, startTime) <==> Agreed(w, h, startTime)
  {
    LastLineIsFound(w, h);
  }

  // ---------------------------------------------------------------- creating

  /** The create at `i` reaches the write. */
  predicate CreatePasses(w: Words, events: seq<Event>, i: nat)
    requires i < |events| && events[i].OnCreate?
  {
    var e := events[i];
    CreateGate(w, e.zoned, After(CreateCalls(w, events), i), e.create, e.h, e.redis).1 == Proceed
  }

  /**
   What was refused and what is asked now are one booking, by their own fields: the same wall-clock start, the
   same name but for case and the space around it, and services that do not differ unless one is left out.
   */
  predicate SameBooking(w: Words, one: CreateArgs, oneZone: WallClock.Zoned, two: CreateArgs,
                        twoZone: WallClock.Zoned) {
    && WallClock.Key(oneZone, one.startTime) == WallClock.Key(twoZone, two.startTime)
    && w.lower(w.trim(one.attendeeName)) == w.lower(w.trim(two.attendeeName))
    && (one.serviceId == "" || two.serviceId == "" || one.serviceId == two.serviceId)
  }

  /** The same booking, on the customer's word for the start that was refused. */
  predicate OwedCreate(w: Words, refused: Event, e: Event)
    requires refused.OnCreate? && e.OnCreate?
  {
    && SameBooking(w, refused.create, refused.zoned, e.create, e.zoned)
    && WordGiven(w, e.h, WallClock.Key(refused.zoned, refused.create.startTime))
  }

  /** The create at `j` was refused, and since then none reached its record, or the store failed those that did. */
  predicate LastRefusedCreate(w: Words, events: seq<Event>, j: int, i: nat)
    requires i < |events|
  {
    && 0 <= j < i && events[j].OnCreate? && !CreatePasses(w, events, j)
    && (forall m :: j < m < i && events[m].OnCreate? ==>
       || !HasLine(w, events[m].h) || !events[m].redis.canRead
       || if OwedCreate(w, events[j], events[m]) then !events[m].redis.canDelete else !events[m].redis.canWrite)
    && (forall m :: j < m < i ==> events[m] != Expired(Create))
  }

  /**
   However often the store fails, a create passes exactly when no customer line is there to go by, the store
   cannot be read or written, or it comes right after a refused create of the same start, name and compatible
   service, on the customer's word for that start.
   */
  lemma CreatePassesExactlyAfterSummary(w: Words, events: seq<Event>, i: nat)
    requires i < |events| && events[i].OnCreate?
    ensures CreatePasses(w, events, i) <==>
      || !HasLine(w, events[i].h) || !events[i].redis.canRead || !events[i].redis.canWrite
      || exists j :: LastRefusedCreate(w, events, j, i) && OwedCreate(w, events[j], events[i])
  {
    LinesOf(w, events);
    var calls := CreateCalls(w, events);
    PassesExactlyWhenAgreed(calls, i);
    GatesAreSteps(w, After(calls, i), events[i]);
    forall j | 0 <= j < i ensures Wrote(calls, j, i) <==> LastRefusedCreate(w, events, j, i) {
      CreateWriters(w, events, j, i);
    }
    forall j | 0 <= j < i && events[j].OnCreate? && HasLine(w, events[i].h)
      ensures calls[i].agreed(calls[j].asked) <==> OwedCreate(w, events[j], events[i])
    {
      CreateAgreement(w, events[j], events[i]);
    }
  }

  lemma CreateWriters(w: Words, events: seq<Event>, j: nat, i: nat)
    requires j < i < |events|
    ensures Wrote(CreateCalls(w, events), j, i) <==> LastRefusedCreate(w, events, j, i)
  {
    LinesOf(w, events);
    var calls := CreateCalls(w, events);
    GatesAreSteps(w, After(calls, j), events[j]);
    if events[j].OnCreate? {
      forall m | j < m < i && events[m].OnCreate? && HasLine(w, events[m].h)
        ensures calls[m].agreed(calls[j].asked) <==> OwedCreate(w, events[j], events[m])
      {
        CreateAgreement(w, events[j], events[m]);
      }
    }
  }

  lemma CreateAgreement(w: Words, one: Event, two: Event)
    requires one.OnCreate? && two.OnCreate? && HasLine(w, two.h)
    ensures ToCreate(w, two).agreed(ToCreate(w, one).asked) <==> OwedCreate(w, one, two)
  {
    WordIsGiven(w, two.h, WallClock.Key(one.zoned, one.create.startTime));
  }

  /**
   One agreed summary lets one create through: between two that pass on the customer's word there is a
   refusal, unless the first could not be deleted.
   */
  lemma OneCreatePerSummary(w: Words, events: seq<Event>, i: nat, k: nat)
    requires i < k < |events| && events[i].OnCreate? && events[k].OnCreate?
    requires events[i].redis == UP && HasLine(w, events[i].h) && CreatePasses(w, events, i)
    requires events[k].redis.canRead && events[k].redis.canWrite && HasLine(w, events[k].h)
      && CreatePasses(w, events, k)
    ensures exists j :: i < j < k && events[j].OnCreate? && !CreatePasses(w, events, j)
  {
    var calls := CreateCalls(w, events);
    CreatePassesIsNotRefused(w, events, i);
    CreatePassesIsNotRefused(w, events, k);
    AgreementServesOnce(calls, i, k);
    var j :| i < j < k && calls[j].Ask? && Refused(calls, j);
    CreatePassesIsNotRefused(w, events, j);
  }

  /** A failed deletion is the exception: the same call, made again at once, passes again. */
  lemma UndeletedSummaryServesAgain(w: Words, events: seq<Event>, i: nat)
    requires i + 1 < |events| && events[i].OnCreate? && events[i + 1] == events[i]
    requires HasLine(w, events[i].h) && events[i].redis == Redis(true, true, false) && CreatePasses(w, events, i)
    ensures CreatePasses(w, events, i + 1)
  {
    CreatePassesIsNotRefused(w, events, i);
    CreatePassesIsNotRefused(w, events, i + 1);
    UndeletedServesAgain(CreateCalls(w, events), i);
  }

  lemma CreatePassesIsNotRefused(w: Words, events: seq<Event>, i: nat)
    requires i < |events|
    ensures CreateCalls(w, events)[i].Ask? <==> events[i].OnCreate?
    ensures events[i].OnCreate? ==> CreateCalls(w, events)[i].hasLine == HasLine(w, events[i].h)
    ensures events[i].OnCreate? ==> (CreatePasses(w, events, i) <==> !Refused(CreateCalls(w, events), i))
  {
    LinesOf(w, events);
    GatesAreSteps(w, After(CreateCalls(w, events), i), events[i]);
  }

  // ---------------------------------------------------------------- moving

  function MoveVerdict(w: Words, events: seq<Event>, i: nat): MoveAnswer
    requires i < |events| && events[i].OnMove?
  {
    var e := events[i];
    MoveGate(w, e.zoned, After(MoveCalls(w, events), i), e.move, e.h, e.redis).1
  }

  predicate CreateStopped(w: Words, events: seq<Event>, i: nat)
    requires i < |events| && events[i].OnCreateWhileMoving?
  {
    CreateWhileMoving(After(MoveCalls(w, events), i), events[i].redis).1 == Refuse
  }

  /**
   The move at `j` was refused, and since then no move reached its record, or the store failed those that did,
   no stopped create took it away, and it did not expire.
   */
  predicate LastRefusedMove(w: Words, events: seq<Event>, j: int, i: nat)
    requires i < |events|
  {
    && 0 <= j < i && events[j].OnMove? && MoveVerdict(w, events, j).answer == Refuse
    && (forall m :: j < m < i && events[m].OnMove? ==>
       || !HasLine(w, events[m].h) || !events[m].redis.canRead
       || if OwedMove(w, events[j], events[m]) then !events[m].redis.canDelete else !events[m].redis.canWrite)
    && (forall m :: j < m < i && events[m].OnCreateWhileMoving? ==>
       events[j].move.bookingId == "" || !events[m].redis.canRead || !events[m].redis.canDelete)
    && (forall m :: j < m < i ==> events[m] != Expired(Reschedule))
  }

  /**
   The same booking and hour; an address the call states is the pending one; and the customer agreed to it
   as a whole: with an address, on a yes to one message that carried the question, the hour and that address.
   */
  predicate OwedMove(w: Words, pending: Event, e: Event)
    requires pending.OnMove? && e.OnMove?
  {
    var start, address := WallClock.Key(pending.zoned, pending.move.newStartTime), Stated(w, pending.move.address);
    && pending.move.bookingId == e.move.bookingId && start == WallClock.Key(e.zoned, e.move.newStartTime)
    && (Stated(w, e.move.address).Some? ==> Stated(w, e.move.address) == address)
    && if address.Some? then WordGivenWithAddress(w, e.h, start, address.value) else WordGiven(w, e.h, start)
  }

  /** A yes, with one earlier assistant message that carried a question, the clock and the address. */
  predicate WordGivenWithAddress(w: Words, h: History, startTime: string, address: string) {
    var needle := w.trim(w.squashed(address));
    && w.hasClock(startTime) && needle != ""
    && exists i, q :: 0 <= q < i < |h| && IsLastLine(w, h, i) && w.affirmative(w.trim(h[i].text))
         && h[q].role == Assistant && '?' in h[q].text && w.asksSummary(h[q].text)
         && w.namesClock(h[q].text, startTime) && Contains(w.squashed(h[q].text), needle)
  }

  /**
   However often the store fails, a move passes exactly when no customer line is there to go by, the store
   cannot be read or written, or it is the move last refused, agreed to as a whole. In the last case it goes to
   that move's address even when the confirming call leaves it out; in the others no address is forced on it.
   */
  lemma MovePassesExactlyAsAgreed(w: Words, events: seq<Event>, i: nat)
    requires i < |events| && events[i].OnMove?
    ensures MoveVerdict(w, events, i).answer == Proceed <==>
      || !HasLine(w, events[i].h) || !events[i].redis.canRead || !events[i].redis.canWrite
      || exists j :: LastRefusedMove(w, events, j, i) && OwedMove(w, events[j], events[i])
    ensures HasLine(w, events[i].h) && events[i].redis.canRead ==>
      forall j :: LastRefusedMove(w, events, j, i) && OwedMove(w, events[j], events[i]) ==>
        MoveVerdict(w, events, i).address == Stated(w, events[j].move.address)
    ensures MoveVerdict(w, events, i).address.Some? ==>
      && HasLine(w, events[i].h) && events[i].redis.canRead
      && exists j :: LastRefusedMove(w, events, j, i) && OwedMove(w, events[j], events[i])
  {
    LinesOf(w, events);
    var calls := MoveCalls(w, events);
    PassesExactlyWhenAgreed(calls, i);
    GatesAreSteps(w, After(calls, i), events[i]);
    forall j | 0 <= j < i
      ensures Wrote(calls, j, i) <==> LastRefusedMove(w, events, j, i)
      ensures Wrote(calls, j, i) ==> After(calls, i) == Some(calls[j].asked)
    {
      MoveWriters(w, events, j, i);
      if Wrote(calls, j, i) { WriterHasRecord(calls, j, i); }
    }
    forall j | 0 <= j < i && events[j].OnMove? && HasLine(w, events[i].h)
      ensures calls[i].agreed(calls[j].asked) <==> OwedMove(w, events[j], events[i])
    {
      MoveAgreement(w, events[j], events[i]);
    }
    RecordHasWriter(calls, i);
  }

  lemma MoveWriters(w: Words, events: seq<Event>, j: nat, i: nat)
    requires j < i < |events|
    ensures Wrote(MoveCalls(w, events), j, i) <==> LastRefusedMove(w, events, j, i)
  {
    LinesOf(w, events);
    var calls := MoveCalls(w, events);
    GatesAreSteps(w, After(calls, j), events[j]);
    if events[j].OnMove? {
      forall m | j < m < i && events[m].OnMove? && HasLine(w, events[m].h)
        ensures calls[m].agreed(calls[j].asked) <==> OwedMove(w, events[j], events[m])
      {
        MoveAgreement(w, events[j], events[m]);
      }
    }
  }

  lemma WordIsGivenWithAddress(w: Words, h: History, startTime: string, address: string)
    requires HasLine(w, h)
    ensures WordGivenWithAddress(w, h, startTime, address)
      <==> w.affirmative(LastUtterance(w, h)) && SummaryCarried(w, h, startTime, address)
  {
    LastLineIsFound(w, h);
  }

  lemma MoveAgreement(w: Words, one: Event, two: Event)
    requires one.OnMove? && two.OnMove? && HasLine(w, two.h)
    ensures ToMove(w, two).agreed(ToMove(w, one).asked) <==> OwedMove(w, one, two)
  {
    WordIsGiven(w, two.h, WallClock.Key(one.zoned, one.move.newStartTime));
    if Stated(w, one.move.address).Some? {
      WordIsGivenWithAddress(w, two.h, WallClock.Key(one.zoned, one.move.newStartTime),
        Stated(w, one.move.address).value);
    }
  }

  /** A pending move stops a create once: between two such refusals the move was asked for again. */
  lemma CreateStoppedOncePerMove(w: Words, events: seq<Event>, i: nat, k: nat)
    requires i < k < |events|
    requires events[i].OnCreateWhileMoving? && CreateStopped(w, events, i) && events[i].redis.canDelete
    requires events[k].OnCreateWhileMoving? && CreateStopped(w, events, k)
    ensures exists j :: i < j < k && events[j].OnMove? && MoveVerdict(w, events, j).answer == Refuse
  {
    var calls := MoveCalls(w, events);
    GatesAreSteps(w, After(calls, i), events[i]);
    GatesAreSteps(w, After(calls, k), events[k]);
    WithdrawsOncePerRecord(calls, i, k);
    var j :| i < j < k && calls[j].Ask? && Refused(calls, j);
    GatesAreSteps(w, After(calls, j), events[j]);
  }

  // ---------------------------------------------------------------- cancelling

  function ToCancel(w: Words, e: Event): Call<Pending> {
    match e
    case OnCancel(id, h, redis) => Ask(CancelDetails(id), LastUtterance(w, h) != "",
      p => CancelConfirmed(w, Some(p), CancelDetails(id), h), redis)
    case Expired(Cancel) => Lapse
    case _ => Unrelated
  }

  function CancelCalls(w: Words, events: seq<Event>): (calls: seq<Call<Pending>>)
    ensures |calls| == |events| && forall i :: 0 <= i < |calls| ==> calls[i] == ToCancel(w, events[i])
  {
    seq(|events|, i requires 0 <= i < |events| => ToCancel(w, events[i]))
  }

  predicate CancelPasses(w: Words, events: seq<Event>, i: nat)
    requires i < |events| && events[i].OnCancel?
  {
    CancelGate(w, After(CancelCalls(w, events), i), events[i].bookingId, events[i].h, events[i].redis).1 == Proceed
  }

  /** A yes, or a chip that fits a request without a start. */
  predicate CancelAgreed(w: Words, h: History) {
    exists i :: 0 <= i < |h| && IsLastLine(w, h, i)
      && (w.affirmative(w.trim(h[i].text)) || w.chip(w.trim(h[i].text), ""))
  }

  predicate OwedCancel(w: Words, refused: Event, e: Event)
    requires refused.OnCancel? && e.OnCancel?
  {
    refused.bookingId == e.bookingId && CancelAgreed(w, e.h)
  }

  predicate LastRefusedCancel(w: Words, events: seq<Event>, j: int, i: nat)
    requires i < |events|
  {
    && 0 <= j < i && events[j].OnCancel? && !CancelPasses(w, events, j)
    && (forall m :: j < m < i && events[m].OnCancel? ==>
       || !HasLine(w, events[m].h) || !events[m].redis.canRead
       || if OwedCancel(w, events[j], events[m]) then !events[m].redis.canDelete else !events[m].redis.canWrite)
    && (forall m :: j < m < i ==> events[m] != Expired(Cancel))
  }

  lemma CancelIsAgreed(w: Words, h: History)
    requires HasLine(w, h)
    ensures CancelAgreed(w, h) <==> w.affirmative(LastUtterance(w, h)) || w.chip(LastUtterance(w, h), "")
  {
    LastLineIsFound(w, h);
  }

  /**
   However often the store fails, a cancellation passes exactly when no customer line is there to go by, the
   store cannot be read or written, or it comes right after a refused one of the same booking, on a yes or a chip.
   */
  lemma CancelPassesExactlyAfterRefusal(w: Words, events: seq<Event>, i: nat)
    requires i < |events| && events[i].OnCancel?
    ensures CancelPasses(w, events, i) <==>
      || !HasLine(w, events[i].h) || !events[i].redis.canRead || !events[i].redis.canWrite
      || exists j :: LastRefusedCancel(w, events, j, i) && OwedCancel(w, events[j], events[i])
  {
    LinesOf(w, events);
    var calls := CancelCalls(w, events);
    PassesExactlyWhenAgreed(calls, i);
    forall j | 0 <= j < i ensures Wrote(calls, j, i) <==> LastRefusedCancel(w, events, j, i) {
      CancelWriters(w, events, j, i);
    }
    if HasLine(w, events[i].h) { CancelIsAgreed(w, events[i].h); }
  }

  lemma CancelWriters(w: Words, events: seq<Event>, j: nat, i: nat)
    requires j < i < |events|
    ensures Wrote(CancelCalls(w, events), j, i) <==> LastRefusedCancel(w, events, j, i)
  {
    LinesOf(w, events);
    forall m | j < m < i && events[m].OnCancel? && HasLine(w, events[m].h)
      ensures CancelAgreed(w, events[m].h)
        <==> w.affirmative(LastUtterance(w, events[m].h)) || w.chip(LastUtterance(w, events[m].h), "")
    {
      CancelIsAgreed(w, events[m].h);
    }
  }

  // ---------------------------------------------------------------- nudge and gate

  /**
   On one history and store, the arguments the nudge returns pass the gate, with the same booking and
   address, exactly when the stored key is a bare date and clock or ends in no clock; otherwise the gate
   refuses them and asks the customer again.
   */
  lemma NudgePassesGate(w: Words, zoned: WallClock.Zoned, a: MoveArgs, h: History)
    requires Trims(w) && WallClock.PrintsClocks(zoned)
    requires AgreedMove(w, Some(MoveDetails(w, zoned, a)), h, true).Some?
    ensures var p := MoveDetails(w, zoned, a);
      MoveGate(w, zoned, Some(p), AgreedMove(w, Some(p), h, true).value, h, UP).1
      == if WallClock.IsKey(p.startTime) || !WallClock.EndsWithClock(p.startTime)
         then MoveAnswer(Proceed, p.address) else MoveAnswer(Refuse, None)
  {
    var p := MoveDetails(w, zoned, a);
    var args := AgreedMove(w, Some(p), h, true).value;
    WallClock.ReKeyingIsStable(zoned, a.newStartTime);
    assert MoveDetails(w, zoned, args) == p.(startTime := WallClock.Key(zoned, WallClock.WithSeconds(p.startTime)));
  }

  /**
   After a refused move, the nudge speaks exactly when the store can be read, there is a customer line, the
   booking is named, and some call would pass the gate now.
   */
  lemma NudgeIffAgreed(w: Words, zoned: WallClock.Zoned, a: MoveArgs, h: History, canRead: bool)
    ensures var p := MoveDetails(w, zoned, a);
      AgreedMove(w, Some(p), h, canRead).Some?
      <==> && canRead && HasLine(w, h) && a.bookingId != ""
           && exists args :: MoveGate(w, zoned, Some(p), args, h, UP).1.answer == Proceed
  {
    var p := MoveDetails(w, zoned, a);
    LastLineIsFound(w, h);
    if AgreedMove(w, Some(p), h, canRead).Some? {
      assert MoveConfirmed(w, Some(p), MoveDetails(w, zoned, a), h);
      assert MoveGate(w, zoned, Some(p), a, h, UP).1.answer == Proceed;
    }
  }

  /**
   On a yes that is no chip, `pendingYesNeedsCreate` holds exactly when the store can be read and the gate lets
   the same details through.
   */
  lemma CreateNudgePassesGate(w: Words, zoned: WallClock.Zoned, a: CreateArgs, h: History, canRead: bool)
    requires HasLine(w, h) && w.affirmative(LastUtterance(w, h))
      && !w.chip(LastUtterance(w, h), WallClock.Key(zoned, a.startTime))
    ensures YesNeedsCreate(w, Some(CreateDetails(w, zoned, a)), h, canRead)
      <==> canRead && CreateGate(w, zoned, Some(CreateDetails(w, zoned, a)), a, h, UP) == (None, Proceed)
  {
    LastLineIsFound(w, h);
  }
}
