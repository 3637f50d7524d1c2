/**
 The clock times a reply names against the slots that were offered, and the chips put beside it. A text is
 what the parsers see of it: prose, clock readings, and spans of two readings. Days and minutes of the day
 are integers; reading them from ISO starts and zones is a parameter of each slot.
 */
module ReplyTimes {
  import opened Wrappers

  type Minutes = int

  /** `padded` when the hour was written with two digits; such a reading is explicit, never a possible afternoon. */
  datatype Clock = Clock(hour: nat, minute: nat, ambiguous: bool, dotted: bool, padded: bool)

  datatype Piece =
    | Prose(words: string)
    | Time(clock: Clock)
    | Span(first: Clock, last: Clock)

  type Text = seq<Piece>

  function KeyOf(c: Clock): Minutes {
    c.hour * 60 + c.minute
  }

  predicate IsClock(c: Clock) {
    c.hour < 24 && c.minute < 60
  }

  function PieceTimes(p: Piece): seq<Clock> {
    match p
    case Prose(_) => []
    case Time(c) => [c]
    case Span(first, last) => [first, last]
  }

  /** `parseClockTimes`: the readings in the order they stand. */
  function Times(text: Text): seq<Clock> {
    if text == [] then [] else PieceTimes(text[0]) + Times(text[1..])
  }

  /** One time, however often it is repeated. */
  function SingleTime(text: Text): Option<Clock> {
    var times := Times(text);
    if times != [] && forall i :: 0 <= i < |times| ==> KeyOf(times[i]) == KeyOf(times[0]) then Some(times[0]) else None
  }

  predicate PmAltAllowed(c: Clock) {
    c.ambiguous && c.hour < 12 && !c.padded
  }

  /** The reading itself, or its afternoon reading, is among the offered times. */
  predicate IsOffered(c: Clock, offered: seq<Minutes>) {
    KeyOf(c) in offered || (PmAltAllowed(c) && KeyOf(c) + 720 in offered)
  }

  // ---------------------------------------------------------------- spans

  /** Modulo a day, so a span past midnight measures as the appointment it is. */
  function SpanLength(first: Clock, last: Clock): Minutes {
    (KeyOf(last) - KeyOf(first) + 1440) % 1440
  }

  function CollapsedPiece(p: Piece, lengths: set<Minutes>): Piece {
    if p.Span? && SpanLength(p.first, p.last) in lengths then Time(p.first) else p
  }

  /** Spans as long as an offered appointment read as their start; every other span stays a range. */
  function Collapsed(text: Text, lengths: set<Minutes>): (r: Text)
    ensures |r| == |text| && forall i :: 0 <= i < |text| ==> r[i] == CollapsedPiece(text[i], lengths)
  {
    if lengths == {} || text == [] then text
    else [CollapsedPiece(text[0], lengths)] + Collapsed(text[1..], lengths)
  }

  /** The end reached from a start by one appointment measures exactly that appointment, over midnight or not. */
  lemma AppointmentSpanMeasuresItsLength(first: Clock, last: Clock, length: Minutes)
    requires IsClock(first) && IsClock(last) && 0 < length < 1440
    ensures SpanLength(first, last) == length <==> KeyOf(last) == (KeyOf(first) + length) % 1440
  {
    WrapsAroundTheDay(KeyOf(first), KeyOf(last), length);
  }

  lemma WrapsAroundTheDay(a: Minutes, b: Minutes, length: Minutes)
    requires 0 <= a < 1440 && 0 <= b < 1440 && 0 < length < 1440
    ensures (b - a + 1440) % 1440 == length <==> b == (a + length) % 1440
  {
    assert (b - a + 1440) % 1440 == if b >= a then b - a else b - a + 1440;
    assert (a + length) % 1440 == if a + length < 1440 then a + length else a + length - 1440;
  }

  // ---------------------------------------------------------------- the guards on a reply

  /** `unofferedTimesIn`: only an enumeration is judged. */
  method UnofferedTimesIn(text: Text, offered: seq<Minutes>) returns (named: seq<Clock>)
    ensures named == Unoffered(Times(text), offered)
    ensures named == [] <==> |Times(text)| < 2 || forall c :: c in Times(text) ==> IsOffered(c, offered)
  {
    var times := Times(text);
    NoneUnoffered(times, offered);
    if |times| < 2 { return []; }
    named := [];
    for i := 0 to |times|
      invariant named == Missing(times[..i], offered)
    {
      assert times[..i + 1][..i] == times[..i];
      if !IsOffered(times[i], offered) { named := named + [times[i]]; }
    }
    assert times[..|times|] == times;
  }

  function Missing(times: seq<Clock>, offered: seq<Minutes>): seq<Clock> {
    if times == [] then []
    else
      var n := |times| - 1;
      Missing(times[..n], offered) + if IsOffered(times[n], offered) then [] else [times[n]]
  }

  function Unoffered(times: seq<Clock>, offered: seq<Minutes>): seq<Clock> {
    if |times| < 2 then [] else Missing(times, offered)
  }

  lemma {:induction false} MissingAreTheUnoffered(times: seq<Clock>, offered: seq<Minutes>)
    ensures forall c :: c in Missing(times, offered) <==> c in times && !IsOffered(c, offered)
  {
    if times != [] {
      var n := |times| - 1;
      MissingAreTheUnoffered(times[..n], offered);
      assert times == times[..n] + [times[n]];
    }
  }

  lemma NoneUnoffered(times: seq<Clock>, offered: seq<Minutes>)
    ensures Unoffered(times, offered) == [] <==> |times| < 2 || forall c :: c in times ==> IsOffered(c, offered)
  {
    MissingAreTheUnoffered(times, offered);
    if Missing(times, offered) != [] {
      assert Missing(times, offered)[0] in Missing(times, offered);
    }
  }

  /** `unofferedSingleTimeIn`: a decimal point without a meridiem may be a price, and is left alone. */
  function UnofferedSingle(text: Text, offered: seq<Minutes>): Option<Clock> {
    var named := SingleTime(text);
    if named.None? || (named.value.dotted && named.value.ambiguous) || IsOffered(named.value, offered) then None
      else named
  }

  // ---------------------------------------------------------------- what was offered

  /** A slot as the zone reads its start; `valid` is false when the start does not parse. */
  datatype Slot = Slot(valid: bool, date: int, weekday: int, minutes: Minutes, at: int, length: Minutes)
  datatype Availability = Availability(slots: seq<Slot>, requestable: seq<Slot>)

  const CHIPS := 8

  function First(slots: seq<Slot>, n: nat): seq<Slot> {
    if |slots| <= n then slots else slots[..n]
  }

  predicate AllValid(slots: seq<Slot>) {
    forall i :: 0 <= i < |slots| ==> slots[i].valid
  }

  function Minute(slots: seq<Slot>): (r: seq<Minutes>)
    ensures |r| == |slots| && forall i :: 0 <= i < |slots| ==> r[i] == slots[i].minutes
  {
    seq(|slots|, i requires 0 <= i < |slots| => slots[i].minutes)
  }

  function LocalTimes(slots: seq<Slot>): Option<seq<Minutes>> {
    if AllValid(slots) then Some(Minute(slots)) else None
  }

  function OrEmpty(times: Option<seq<Minutes>>): seq<Minutes> {
    if times.Some? then times.value else []
  }

  /**
   The times a list in the reply is held against as delivered: always the first eight slots, whichever window the
   chips show, and the requestable ones. None when one of the first eight starts does not parse.
   */
  function Deliverable(av: Availability): Option<seq<Minutes>> {
    var offered := LocalTimes(First(av.slots, CHIPS));
    if offered.Some? then Some(offered.value + OrEmpty(LocalTimes(av.requestable))) else None
  }

  /** Every time a booking or a request would accept. */
  function EveryOfferable(av: Availability): seq<Minutes> {
    OrEmpty(LocalTimes(av.slots)) + OrEmpty(LocalTimes(av.requestable))
  }

  function Lengths(av: Availability): set<Minutes> {
    set s | s in av.slots + av.requestable && s.length > 0 :: s.length
  }

  /**
   Everything delivered counts as offerable exactly when all starts parse, or the requestable list happens
   to hold the delivered times: one bad start beyond the eighth empties the confirmable list.
   */
  lemma DeliveredAreOfferable(av: Availability)
    requires Deliverable(av).Some?
    ensures (forall t :: t in Deliverable(av).value ==> t in EveryOfferable(av))
      <==> AllValid(av.slots) || forall s :: s in First(av.slots, CHIPS) ==>
        s.minutes in OrEmpty(LocalTimes(av.requestable))
  {
    var first, requestable := First(av.slots, CHIPS), OrEmpty(LocalTimes(av.requestable));
    forall i | 0 <= i < |first| ensures first[i].minutes in Deliverable(av).value {
      assert Minute(first)[i] == first[i].minutes;
      assert Deliverable(av).value[i] == first[i].minutes;
    }
    if AllValid(av.slots) {
      forall t | t in Minute(first) ensures t in Minute(av.slots) {
        var i :| 0 <= i < |first| && Minute(first)[i] == t;
        assert Minute(av.slots)[i] == t;
      }
    }
    if forall t :: t in Deliverable(av).value ==> t in EveryOfferable(av) {
      forall s | s in first && !AllValid(av.slots) ensures s.minutes in requestable {
        var i :| 0 <= i < |first| && first[i] == s;
      }
    }
  }

  // ---------------------------------------------------------------- the reply that ships

  datatype Shipped = AsWritten | NoSlotsOnScreen | UnbookableTime | AvailabilityFallback

  predicate NamedBy(flagged: seq<Clock>, customer: Text) {
    exists c, d :: c in flagged && d in Times(customer) && KeyOf(c) == KeyOf(d)
  }

  function SafeReply(reply: Text, av: Option<Availability>, customer: Text, onScreen: bool): Shipped {
    if av.None? || Deliverable(av.value).None? || Deliverable(av.value).value == [] then AsWritten
    else
      var judged := Collapsed(reply, Lengths(av.value));
      var bogus := if onScreen then Unoffered(Times(judged), Deliverable(av.value).value) else [];
      var invented := if bogus != [] then None else UnofferedSingle(judged, EveryOfferable(av.value));
      var flagged := if bogus != [] then bogus else if invented.Some? then [invented.value] else [];
      if flagged == [] then AsWritten
      else if !onScreen then NoSlotsOnScreen
      else if NamedBy(flagged, customer) || invented.Some? then UnbookableTime
      else AvailabilityFallback
  }

  /**
   On a turn that delivered times, a reply ships as written exactly when, with every appointment said in
   full read as its start: beside chips, an enumeration names only delivered times; and a single time that is
   not written like a price is one a booking or request would accept. Afternoon readings count.
   */
  lemma ShipsOnlyOfferedTimes(reply: Text, av: Availability, customer: Text, onScreen: bool)
    requires Deliverable(av).Some? && Deliverable(av).value != []
    ensures var judged := Collapsed(reply, Lengths(av));
      SafeReply(reply, Some(av), customer, onScreen) == AsWritten
      <==> && (onScreen && |Times(judged)| >= 2 ==> forall c :: c in Times(judged) ==>
        IsOffered(c, Deliverable(av).value))
           && (SingleTime(judged).Some? && !(SingleTime(judged).value.dotted && SingleTime(judged).value.ambiguous)
               ==> IsOffered(SingleTime(judged).value, EveryOfferable(av)))
  {
    NoneUnoffered(Times(Collapsed(reply, Lengths(av))), Deliverable(av).value);
  }

  /**
   Which replacement: nothing on screen; else the customer's own hour or a lone invented time; else the plain
   fallback.
   */
  lemma ReplacementSaysWhy(reply: Text, av: Availability, customer: Text)
    requires SafeReply(reply, Some(av), customer, true) != AsWritten
    ensures SafeReply(reply, Some(av), customer, true) == AvailabilityFallback
      <==> |Times(Collapsed(reply, Lengths(av)))| >= 2
           && (exists c :: c in Times(Collapsed(reply, Lengths(av))) && !IsOffered(c, Deliverable(av).value))
           && forall c :: c in Times(Collapsed(reply, Lengths(av))) && !IsOffered(c, Deliverable(av).value) ==>
                forall d :: d in Times(customer) ==> KeyOf(d) != KeyOf(c)
  {
    var times := Times(Collapsed(reply, Lengths(av)));
    NoneUnoffered(times, Deliverable(av).value);
    MissingAreTheUnoffered(times, Deliverable(av).value);
  }

  /** So a reply that repeats a delivered time is replaced, once a ninth start does not parse. */
  lemma BadStartUnsaysDelivered(first: seq<Slot>, bad: Slot, c: Clock, customer: Text, onScreen: bool)
    requires |first| == CHIPS && AllValid(first) && !bad.valid && first[0].minutes == KeyOf(c) && !c.ambiguous
    ensures var av, reply := Availability(first + [bad], []), [Time(c)];
      && Deliverable(av).Some? && KeyOf(c) in Deliverable(av).value
      && SafeReply(reply, Some(av), customer, onScreen) != AsWritten
  {
    var av, reply := Availability(first + [bad], []), [Time(c)];
    assert First(av.slots, CHIPS) == first && !av.slots[CHIPS].valid;
    assert Deliverable(av).value[0] == KeyOf(c);
    assert EveryOfferable(av) == [];
    var judged := Collapsed(reply, Lengths(av));
    assert judged == reply && reply[1..] == [] && Times(reply) == [c] + Times([]);
    assert SingleTime(judged) == Some(c);
    ShipsOnlyOfferedTimes(reply, av, customer, onScreen);
  }

  // ---------------------------------------------------------------- the hour the customer named

  datatype Role = User | Assistant | Other
  datatype Message = Message(role: Role, text: Text)

  /** An assistant turn that lists two different times is an offer: hours named before it are gone. */
  predicate Enumerates(m: Message) {
    m.role == Assistant && Times(m.text) != [] && SingleTime(m.text).None?
  }

  predicate NamesTime(m: Message) {
    m.role == User && Times(m.text) != []
  }

  /** The newest customer message that names a time, unless an offer came after it. */
  method LatestCustomerTime(messages: seq<Message>) returns (found: Option<nat>)
    ensures match found
            case Some(i) => i < |messages| && NamesTime(messages[i])
                            && forall j :: i < j < |messages| ==> !NamesTime(messages[j]) && !Enumerates(messages[j])
            case None => forall i :: 0 <= i < |messages| && NamesTime(messages[i]) ==>
                           exists j :: i < j < |messages| && Enumerates(messages[j])
  {
    var i := |messages| - 1;
    while i >= 0
      invariant -1 <= i < |messages|
      invariant forall j :: i < j < |messages| ==> !NamesTime(messages[j]) && !Enumerates(messages[j])
    {
      if messages[i].role == Assistant {
        if Enumerates(messages[i]) { return None; }
      } else if NamesTime(messages[i]) {
        return Some(i);
      }
      i := i - 1;
    }
    return None;
  }

  // ---------------------------------------------------------------- slots on the day they named

  /** The days a text names; naming none leaves every slot in play. */
  datatype Days = Days(dates: set<int>, weekdays: set<int>)

  predicate Anchored(d: Days) {
    d.dates != {} || d.weekdays != {}
  }

  predicate OnDay(s: Slot, d: Days) {
    Anchored(d) ==> s.valid && (d.dates != {} ==> s.date in d.dates) && (d.weekdays != {} ==> s.weekday in d.weekdays)
  }

  predicate Matches(s: Slot, c: Clock) {
    s.valid && (s.minutes == KeyOf(c) || (PmAltAllowed(c) && s.minutes == KeyOf(c) + 720))
  }

  predicate Candidate(s: Slot, c: Clock, d: Days) {
    OnDay(s, d) && Matches(s, c)
  }

  /** The first candidate still to come; failing that the last one gone by. */
  method ResolveNamedSlot(text: Text, days: Days, slots: seq<Slot>, now: int) returns (found: Option<nat>)
    ensures SingleTime(text).None? ==> found.None?
    ensures SingleTime(text).Some? ==>
      var c := SingleTime(text).value;
      match found
      case None => forall i :: 0 <= i < |slots| ==> !Candidate(slots[i], c, days)
      case Some(k) =>
        && k < |slots| && Candidate(slots[k], c, days)
        && (slots[k].at >= now ==> forall i :: 0 <= i < k && Candidate(slots[i], c, days) ==> slots[i].at < now)
        && (slots[k].at < now ==> (forall i :: 0 <= i < |slots| && Candidate(slots[i], c, days) ==> slots[i].at < now)
                                  && forall i :: k < i < |slots| ==> !Candidate(slots[i], c, days))
  {
    if SingleTime(text).None? || slots == [] { return None; }
    var c := SingleTime(text).value;
    found := None;
    for i := 0 to |slots|
      invariant forall j :: 0 <= j < i && Candidate(slots[j], c, days) ==> slots[j].at < now
      invariant found.None? ==> forall j :: 0 <= j < i ==> !Candidate(slots[j], c, days)
      invariant found.Some? ==> found.value < i && Candidate(slots[found.value], c, days)
      invariant found.Some? ==> forall j :: found.value < j < i ==> !Candidate(slots[j], c, days)
    {
      if OnDay(slots[i], days) && Matches(slots[i], c) {
        if slots[i].at >= now { return Some(i); }
        found := Some(i);
      }
    }
  }

  /** A future slot on the named day matches the one time named. */
  predicate NamesFutureSlot(text: Text, days: Days, slots: seq<Slot>, now: int) {
    SingleTime(text).Some?
    && exists i :: 0 <= i < |slots| && Candidate(slots[i], SingleTime(text).value, days) && slots[i].at >= now
  }

  method NamesSingleOfferedSlot(text: Text, days: Days, slots: seq<Slot>, now: int) returns (names: bool)
    ensures names == NamesFutureSlot(text, days, slots, now)
  {
    var found := ResolveNamedSlot(text, days, slots, now);
    names := found.Some? && slots[found.value].at >= now;
  }

  // ---------------------------------------------------------------- chips for a refused hour

  /** `unofferedSingleNamedSlot`, for a text that anchors its hour to a day. */
  predicate RefusedHour(text: Text, days: Days, slots: seq<Slot>, now: int) {
    && SingleTime(text).Some? && !(SingleTime(text).value.dotted && SingleTime(text).value.ambiguous)
    && !NamesFutureSlot(text, days, slots, now)
    && (!Anchored(days) ==> UnofferedSingle(text, OrEmpty(LocalTimes(slots))).Some?)
  }

  function Distance(s: Slot, c: Clock): int {
    if s.minutes >= KeyOf(c) then s.minutes - KeyOf(c) else KeyOf(c) - s.minutes
  }

  /** `a` is strictly better than `b`: nearer to the refused hour, or as near and earlier in the day. */
  predicate Nearer(a: Slot, b: Slot, c: Clock) {
    Distance(a, c) < Distance(b, c) || (Distance(a, c) == Distance(b, c) && a.minutes < b.minutes)
  }

  /** The same-day slot nearest the refused hour, earlier on ties, first in the list among equals. */
  predicate IsNearest(slots: seq<Slot>, k: int, c: Clock, days: Days) {
    && 0 <= k < |slots| && OnDay(slots[k], days)
    && (forall i :: 0 <= i < |slots| && OnDay(slots[i], days) ==> !Nearer(slots[i], slots[k], c))
    && (forall i :: 0 <= i < k && OnDay(slots[i], days) ==> Nearer(slots[k], slots[i], c))
  }

  /** Up to eight slots from position `k` on. */
  function Window(slots: seq<Slot>, k: nat): seq<Slot>
    requires k < |slots|
  {
    slots[k..if k + CHIPS <= |slots| then k + CHIPS else |slots|]
  }

  /** What is shown: all slots, unless an hour on a named day was refused and that day has slots. */
  method ChipCandidates(text: Text, days: Days, slots: seq<Slot>, now: int) returns (chips: seq<Slot>)
    ensures var narrowed := RefusedHour(text, days, slots, now) && Anchored(days) && exists i ::
      0 <= i < |slots| && OnDay(slots[i], days);
      && (!narrowed ==> chips == slots)
      && (narrowed ==> exists k :: IsNearest(slots, k, SingleTime(text).value, days) && chips == Window(slots, k))
  {
    var refused := UnofferedSingleNamedSlot(text, days, slots, now);
    if refused.None? { return slots; }
    if !Anchored(days) { return slots; }
    var c := SingleTime(text).value;
    var best := -1;
    for i := 0 to |slots|
      invariant -1 <= best < i
      invariant best == -1 ==> forall j :: 0 <= j < i ==> !OnDay(slots[j], days)
      invariant best >= 0 ==> OnDay(slots[best], days)
      invariant best >= 0 ==> forall j :: 0 <= j < i && OnDay(slots[j], days) ==> !Nearer(slots[j], slots[best], c)
      invariant best >= 0 ==> forall j :: 0 <= j < best && OnDay(slots[j], days) ==> Nearer(slots[best], slots[j], c)
    {
      if OnDay(slots[i], days) && slots[i].valid {
        if best < 0 || Nearer(slots[i], slots[best], c) { best := i; }
      }
    }
    if best < 0 { return slots; }
    assert IsNearest(slots, best, c, days);
    chips := Window(slots, best);
  }

  method UnofferedSingleNamedSlot(text: Text, days: Days, slots: seq<Slot>, now: int) returns (refused: Option<Clock>)
    ensures refused.Some? <==> RefusedHour(text, days, slots, now)
    ensures refused.Some? ==> refused == SingleTime(text)
  {
    var clock := SingleTime(text);
    if clock.None? || (clock.value.dotted && clock.value.ambiguous) { return None; }
    var names := NamesSingleOfferedSlot(text, days, slots, now);
    if names { return None; }
    if !Anchored(days) { return UnofferedSingle(text, OrEmpty(LocalTimes(slots))); }
    return clock;
  }

  /** The nearest slot is one slot: no two positions qualify, so the window shown is determined. */
  lemma NearestIsUnique(slots: seq<Slot>, k: int, l: int, c: Clock, days: Days)
    requires IsNearest(slots, k, c, days) && IsNearest(slots, l, c, days)
    ensures k == l
  {
  }

  predicate Before(a: Slot, b: Slot) {
    a.date < b.date || (a.date == b.date && a.minutes < b.minutes)
  }

  predicate Chronological(slots: seq<Slot>) {
    forall i, j :: 0 <= i < j < |slots| ==> Before(slots[i], slots[j])
  }

  /**
   The whole window, of a list in time order: exactly the slots from the nearest one to the last chip, with
   none in between left out; it is short of eight only where the list ends.
   */
  lemma WindowIsAnInterval(slots: seq<Slot>, k: nat)
    requires k < |slots| && Chronological(slots)
    ensures var chips := Window(slots, k); var last := chips[|chips| - 1];
      && (forall s :: s in slots ==> (s in chips <==> !Before(s, chips[0]) && !Before(last, s)))
      && (|chips| < CHIPS ==> last == slots[|slots| - 1])
  {
    var chips := Window(slots, k);
    var last := chips[|chips| - 1];
    forall i | 0 <= i < |slots| ensures slots[i] in chips <==> !Before(slots[i], chips[0]) && !Before(last, slots[i]) {
      assert chips[0] == slots[k] && last == slots[k + |chips| - 1];
      if k <= i < k + |chips| {
        assert chips[i - k] == slots[i];
      } else {
        assert Before(slots[i], chips[0]) || Before(last, slots[i]);
      }
    }
  }

  /** A slot that can still be booked at the hour, or at its afternoon reading. */
  predicate BookableAt(s: Slot, c: Clock, now: int) {
    Matches(s, c) && s.at >= now
  }

  /**
   The refused hour comes back on a chip exactly when one of the seven slots behind the nearest is another day's
   at that hour.
   */
  lemma RefusedHourReturnsOnAnotherDay(text: Text, days: Days, slots: seq<Slot>, now: int, k: nat)
    requires RefusedHour(text, days, slots, now) && IsNearest(slots, k, SingleTime(text).value, days)
    ensures var c := SingleTime(text).value;
      (exists s :: s in Window(slots, k) && BookableAt(s, c, now))
        <==> exists i :: k < i < k + CHIPS && i < |slots| && !OnDay(slots[i], days) && BookableAt(slots[i], c, now)
  {
    var c, chips := SingleTime(text).value, Window(slots, k);
    forall s | s in chips && BookableAt(s, c, now)
      ensures exists i :: k < i < k + CHIPS && i < |slots| && !OnDay(slots[i], days) && BookableAt(slots[i], c, now)
    {
      var j :| 0 <= j < |chips| && chips[j] == s;
      assert slots[k + j] == s;
      if OnDay(s, days) {
        assert Candidate(slots[k + j], c, days);
      }
    }
    if i :| k < i < k + CHIPS && i < |slots| && !OnDay(slots[i], days) && BookableAt(slots[i], c, now) {
      assert chips[i - k] == slots[i];
    }
  }

  /**
   Every chip shown counts as delivered exactly when those the window takes from beyond the eighth slot repeat a
   delivered time.
   */
  lemma ChipsCountAsDelivered(av: Availability, k: nat)
    requires k < |av.slots| && Deliverable(av).Some?
    ensures (forall s :: s in Window(av.slots, k) ==> s.minutes in Deliverable(av).value)
      <==> forall i :: CHIPS <= i < |av.slots| && k <= i < k + CHIPS ==> av.slots[i].minutes in Deliverable(av).value
  {
    var first, chips, delivered := First(av.slots, CHIPS), Window(av.slots, k), Deliverable(av).value;
    forall i | 0 <= i < |first| ensures av.slots[i].minutes in delivered {
      assert Minute(first)[i] == av.slots[i].minutes && delivered[i] == Minute(first)[i];
    }
    forall i | k <= i < k + |chips| ensures av.slots[i] in chips {
      assert chips[i - k] == av.slots[i];
    }
  }

  /** So a reply that names exactly the two chips on screen is replaced, when both stand behind the eighth slot. */
  lemma ChipsCanCountAsInvented(first: seq<Slot>, a: Slot, b: Slot, c: Clock, one: Clock, two: Clock, days: Days,
                                now: int,
                                customer: Text)
    requires |first| == CHIPS && AllValid(first) && Anchored(days) && OnDay(a, days) && OnDay(b, days)
    requires RefusedHour([Time(c)], days, first + [a, b], now)
    requires !Nearer(b, a, c) && forall s :: s in first ==> Nearer(a, s, c)
    requires KeyOf(one) == a.minutes && KeyOf(two) == b.minutes && !one.ambiguous && a.minutes !in Minute(first)
    ensures var av, reply := Availability(first + [a, b], []), [Time(one), Time(two)];
      && SingleTime([Time(c)]) == Some(c) && IsNearest(av.slots, CHIPS, c, days) && Window(av.slots, CHIPS) == [a, b]
      && SafeReply(reply, Some(av), customer, true) != AsWritten
  {
    var av, reply := Availability(first + [a, b], []), [Time(one), Time(two)];
    assert [Time(c)][1..] == [] && Times([Time(c)]) == [c] + Times([]);
    assert reply[1..] == [Time(two)] && [Time(two)][1..] == [];
    assert Times(reply) == [one] + ([two] + Times([]));
    assert First(av.slots, CHIPS) == first && Deliverable(av).value == Minute(first) + [];
    forall i | 0 <= i < CHIPS ensures Nearer(a, av.slots[i], c) && !Nearer(av.slots[i], a, c) {
      assert av.slots[i] == first[i] && first[i] in first;
    }
    assert av.slots[CHIPS] == a && av.slots[CHIPS + 1] == b;
    var judged := Collapsed(reply, Lengths(av));
    assert judged == reply;
    assert one in Times(judged) && !IsOffered(one, Deliverable(av).value);
    assert Deliverable(av).value != [];
    ShipsOnlyOfferedTimes(reply, av, customer, true);
  }

  /** It does: an hour refused on one day, with another slot that day and one at that hour the day after. */
  lemma RefusedHourCanReturn(other: Slot, next: Slot, c: Clock, now: int)
    requires other.valid && next.valid && next.date != other.date && !c.ambiguous && !c.dotted
    requires next.minutes == KeyOf(c) && next.at >= now && other.minutes != KeyOf(c)
    ensures var text, days, slots := [Time(c)], Days({other.date}, {}), [other, next];
      RefusedHour(text, days, slots, now) && IsNearest(slots, 0, c, days) && next in Window(slots, 0)
  {
    var text := [Time(c)];
    assert text[1..] == [] && Times(text) == [c] + Times([]);
    assert SingleTime(text) == Some(c);
    assert Window([other, next], 0)[1] == next;
  }
}
