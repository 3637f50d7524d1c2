/**
 The guards on a reply and the chips beside it, told without their machinery: from the readings as they stand
 in the text, the starts of the slots and the day the customer named.
 */
module ReplyMeaning {
  import opened Wrappers
  import opened ReplyTimes

  // ---------------------------------------------------------------- readings

  function MinuteOf(c: Clock): Minutes {
    60 * c.hour + c.minute
  }

  /**
   What a clock can mean: its own minute, or the afternoon one when it is an unpadded hour before noon without a
   meridiem.
   */
  predicate CanMean(c: Clock, t: Minutes) {
    t == MinuteOf(c) || (c.ambiguous && c.hour < 12 && !c.padded && t == MinuteOf(c) + 12 * 60)
  }

  /** From one reading to the other is as long as some slot on offer. */
  predicate IsAppointment(first: Clock, last: Clock, slots: seq<Slot>) {
    exists i :: 0 <= i < |slots| && slots[i].length > 0 && (MinuteOf(last) - MinuteOf(first)) % 1440 == slots[i].length
  }

  /** The clocks a piece names; an appointment said in full names its start. */
  function ReadingsOf(p: Piece, slots: seq<Slot>): seq<Clock> {
    if p.Prose? then []
    else if p.Time? then [p.clock]
    else if IsAppointment(p.first, p.last, slots) then [p.first]
    else [p.first, p.last]
  }

  /** Those of a text, left to right. */
  function Readings(text: Text, slots: seq<Slot>): seq<Clock> {
    if text == [] then [] else Readings(text[..|text| - 1], slots) + ReadingsOf(text[|text| - 1], slots)
  }

  /** All readings are of one minute. */
  predicate OneMinute(readings: seq<Clock>) {
    readings != [] && forall i, j :: 0 <= i < |readings| && 0 <= j < |readings| ==>
      MinuteOf(readings[i]) == MinuteOf(readings[j])
  }

  /** Written like a price: a decimal point and no meridiem. */
  predicate LikeAPrice(c: Clock) {
    c.dotted && c.ambiguous
  }

  lemma {:induction false} TimesAppend(a: Text, p: Piece)
    ensures Times(a + [p]) == Times(a) + PieceTimes(p)
  {
    if a == [] {
      assert [p][1..] == [] && a + [p] == [p];
    } else {
      assert (a + [p])[1..] == a[1..] + [p];
      TimesAppend(a[1..], p);
    }
  }

  lemma PieceReads(p: Piece, slots: seq<Slot>, lengths: set<Minutes>)
    requires lengths == set s | s in slots && s.length > 0 :: s.length
    ensures PieceTimes(CollapsedPiece(p, lengths)) == ReadingsOf(p, slots)
  {
    if p.Span? { AppointmentIsMeasured(p.first, p.last, slots, lengths); }
  }

  lemma {:induction false} TimesAreReadings(text: Text, slots: seq<Slot>, lengths: set<Minutes>)
    requires lengths == set s | s in slots && s.length > 0 :: s.length
    ensures Times(Collapsed(text, lengths)) == Readings(text, slots)
  {
    if text != [] {
      var n := |text| - 1;
      TimesAreReadings(text[..n], slots, lengths);
      assert Collapsed(text, lengths) == Collapsed(text[..n], lengths) + [CollapsedPiece(text[n], lengths)];
      TimesAppend(Collapsed(text[..n], lengths), CollapsedPiece(text[n], lengths));
      PieceReads(text[n], slots, lengths);
    }
  }

  lemma AppointmentIsMeasured(first: Clock, last: Clock, slots: seq<Slot>, lengths: set<Minutes>)
    requires lengths == set s | s in slots && s.length > 0 :: s.length
    ensures SpanLength(first, last) in lengths <==> IsAppointment(first, last, slots)
  {
    assert (KeyOf(last) - KeyOf(first) + 1440) % 1440 == (MinuteOf(last) - MinuteOf(first)) % 1440;
    if SpanLength(first, last) in lengths {
      var s :| s in slots && s.length > 0 && s.length == SpanLength(first, last);
      var i :| 0 <= i < |slots| && slots[i] == s;
    }
  }

  /** Without slots nothing is an appointment, and every span is read as two clocks. */
  lemma TimesOf(text: Text)
    ensures Times(text) == Readings(text, [])
    ensures SingleTime(text).Some? <==> OneMinute(Readings(text, []))
    ensures SingleTime(text).Some? ==> SingleTime(text).value == Readings(text, [])[0]
  {
    TimesAreReadings(text, [], {});
    assert Collapsed(text, {}) == text;
    SingleOf(text);
  }

  lemma SingleOf(text: Text)
    ensures SingleTime(text).Some? <==> OneMinute(Times(text))
    ensures SingleTime(text).Some? ==> SingleTime(text).value == Times(text)[0]
  {
  }

  // ---------------------------------------------------------------- what a reply may name

  predicate AllParse(slots: seq<Slot>) {
    forall i :: 0 <= i < |slots| ==> slots[i].valid
  }

  /** One of the first `n` slots starts at a minute the clock can mean. */
  predicate Hits(c: Clock, slots: seq<Slot>, n: nat) {
    exists i :: 0 <= i < |slots| && i < n && CanMean(c, slots[i].minutes)
  }

  /** Among the first eight slots, or the requestable ones if all of those parse. */
  predicate Delivered(c: Clock, av: Availability) {
    Hits(c, av.slots, 8) || (AllParse(av.requestable) && Hits(c, av.requestable, |av.requestable|))
  }

  /** Bookable or requestable: each list counts only if all of it parses. */
  predicate Acceptable(c: Clock, av: Availability) {
    (AllParse(av.slots) && Hits(c, av.slots, |av.slots|))
    || (AllParse(av.requestable) && Hits(c, av.requestable, |av.requestable|))
  }

  /** There is something to hold a reply against: the first eight parse, and something was delivered. */
  predicate Judged(av: Availability) {
    && (forall i :: 0 <= i < |av.slots| && i < 8 ==> av.slots[i].valid)
    && (av.slots != [] || (AllParse(av.requestable) && av.requestable != []))
  }

  /** A list of times shown beside chips that names one nobody delivered. */
  predicate ListsUndelivered(readings: seq<Clock>, av: Availability, onScreen: bool) {
    onScreen && |readings| >= 2 && exists i :: 0 <= i < |readings| && !Delivered(readings[i], av)
  }

  /** One time, not written like a price, that nothing accepts. */
  predicate NamesUnacceptable(readings: seq<Clock>, av: Availability) {
    OneMinute(readings) && !LikeAPrice(readings[0]) && !Acceptable(readings[0], av)
  }

  /** The customer named the very minute of an undelivered reading. */
  predicate CustomersOwn(readings: seq<Clock>, av: Availability, customer: Text) {
    exists i, j :: 0 <= i < |readings| && 0 <= j < |Readings(customer, [])|
      && !Delivered(readings[i], av) && MinuteOf(Readings(customer, [])[j]) == MinuteOf(readings[i])
  }

  lemma OfferedIsHit(c: Clock, slots: seq<Slot>)
    ensures IsOffered(c, Minute(slots)) <==> Hits(c, slots, |slots|)
  {
    forall i | 0 <= i < |slots| ensures Minute(slots)[i] == slots[i].minutes {
    }
    if t :| t in Minute(slots) && CanMean(c, t) {
      var i :| 0 <= i < |slots| && Minute(slots)[i] == t;
      assert CanMean(c, slots[i].minutes);
    }
    if Hits(c, slots, |slots|) {
      var i :| 0 <= i < |slots| && CanMean(c, slots[i].minutes);
      assert Minute(slots)[i] in Minute(slots);
    }
  }

  lemma OfferedInEither(c: Clock, a: seq<Minutes>, b: seq<Minutes>)
    ensures IsOffered(c, a + b) <==> IsOffered(c, a) || IsOffered(c, b)
  {
  }

  lemma AcceptableIsOfferable(c: Clock, av: Availability)
    ensures IsOffered(c, EveryOfferable(av)) <==> Acceptable(c, av)
  {
    OfferedInEither(c, OrEmpty(LocalTimes(av.slots)), OrEmpty(LocalTimes(av.requestable)));
    OfferedIsHit(c, av.slots);
    OfferedIsHit(c, av.requestable);
  }

  lemma DeliveredIsDeliverable(c: Clock, av: Availability)
    requires Deliverable(av).Some?
    ensures IsOffered(c, Deliverable(av).value) <==> Delivered(c, av)
  {
    var first := First(av.slots, CHIPS);
    OfferedInEither(c, Minute(first), OrEmpty(LocalTimes(av.requestable)));
    OfferedIsHit(c, first);
    OfferedIsHit(c, av.requestable);
    assert forall i :: 0 <= i < |first| ==> first[i] == av.slots[i];
    if Hits(c, av.slots, 8) {
      var i :| 0 <= i < |av.slots| && i < 8 && CanMean(c, av.slots[i].minutes);
      assert CanMean(c, first[i].minutes);
    }
  }

  lemma JudgedIsDeliverable(av: Availability)
    ensures Deliverable(av).Some? && Deliverable(av).value != [] <==> Judged(av)
  {
    var first := First(av.slots, CHIPS);
    assert forall i :: 0 <= i < |first| ==> first[i] == av.slots[i];
  }

  /**
   What becomes of every reply, in every turn. It ships as written unless there is something to judge it by
   and it lists an undelivered time beside chips, or names one time that nothing accepts; what replaces it says
   whether anything is on screen, and whether the customer could have meant it.
   */
  lemma EveryReplyShips(reply: Text, av: Option<Availability>, customer: Text, onScreen: bool)
    ensures var r := if av.Some? then Readings(reply, av.value.slots + av.value.requestable) else [];
      SafeReply(reply, av, customer, onScreen) ==
      if av.None? || !Judged(av.value) then AsWritten
      else if ListsUndelivered(r, av.value, onScreen)
        then (if CustomersOwn(r, av.value, customer) then UnbookableTime else AvailabilityFallback)
      else if NamesUnacceptable(r, av.value) then (if onScreen then UnbookableTime else NoSlotsOnScreen)
      else AsWritten
  {
    if av.Some? && Judged(av.value) {
      JudgedIsDeliverable(av.value);
      JudgedReplyShips(reply, av.value, customer, onScreen);
    } else if av.Some? {
      JudgedIsDeliverable(av.value);
    }
  }

  lemma JudgedReplyShips(reply: Text, av: Availability, customer: Text, onScreen: bool)
    requires Judged(av) && Deliverable(av).Some? && Deliverable(av).value != []
    ensures var r := Readings(reply, av.slots + av.requestable);
      SafeReply(reply, Some(av), customer, onScreen) ==
      if ListsUndelivered(r, av, onScreen)
        then (if CustomersOwn(r, av, customer) then UnbookableTime else AvailabilityFallback)
      else if NamesUnacceptable(r, av) then (if onScreen then UnbookableTime else NoSlotsOnScreen)
      else AsWritten
  {
    var judged, r := Collapsed(reply, Lengths(av)), Readings(reply, av.slots + av.requestable);
    TimesAreReadings(reply, av.slots + av.requestable, Lengths(av));
    TimesOf(customer);
    FlaggedAreUndelivered(r, av);
    LoneTimeIsFaulted(judged, r, av);
    OwnHour(r, Missing(r, Deliverable(av).value), av, customer);
    if onScreen && Unoffered(r, Deliverable(av).value) != [] {
      ListedShips(reply, av, customer);
    } else {
      UnlistedShips(reply, av, customer, onScreen);
    }
    hide SafeReply, Readings, Delivered, Deliverable, Times, Collapsed, EveryOfferable, Missing, NamedBy,
      UnofferedSingle,
      NamesUnacceptable, CustomersOwn, Unoffered, Judged;
  }

  lemma ListedShips(reply: Text, av: Availability, customer: Text)
    requires Deliverable(av).Some? && Deliverable(av).value != []
    requires Unoffered(Times(Collapsed(reply, Lengths(av))), Deliverable(av).value) != []
    ensures SafeReply(reply, Some(av), customer, true)
      == if NamedBy(Missing(Times(Collapsed(reply, Lengths(av))), Deliverable(av).value), customer) then UnbookableTime
         else AvailabilityFallback
  {
    hide Times, Collapsed, Deliverable, EveryOfferable, Missing, NamedBy, UnofferedSingle;
  }

  lemma UnlistedShips(reply: Text, av: Availability, customer: Text, onScreen: bool)
    requires Deliverable(av).Some? && Deliverable(av).value != []
    requires onScreen ==> Unoffered(Times(Collapsed(reply, Lengths(av))), Deliverable(av).value) == []
    ensures SafeReply(reply, Some(av), customer, onScreen)
      == if UnofferedSingle(Collapsed(reply, Lengths(av)), EveryOfferable(av)).None? then AsWritten
         else if onScreen then UnbookableTime else NoSlotsOnScreen
  {
    hide Times, Collapsed, Deliverable, EveryOfferable, Missing, NamedBy, UnofferedSingle, Unoffered;
  }

  lemma LoneTimeIsFaulted(judged: Text, r: seq<Clock>, av: Availability)
    requires Times(judged) == r
    ensures UnofferedSingle(judged, EveryOfferable(av)).Some? <==> NamesUnacceptable(r, av)
  {
    SingleOf(judged);
    if r != [] { AcceptableIsOfferable(r[0], av); }
  }

  /** What an enumeration is faulted for. */
  lemma FlaggedAreUndelivered(r: seq<Clock>, av: Availability)
    requires Deliverable(av).Some?
    ensures forall c :: c in Missing(r, Deliverable(av).value) <==> c in r && !Delivered(c, av)
    ensures Unoffered(r, Deliverable(av).value) != []
      <==> |r| >= 2 && exists i :: 0 <= i < |r| && !Delivered(r[i], av)
  {
    var offered := Deliverable(av).value;
    MissingAreTheUnoffered(r, offered);
    NoneUnoffered(r, offered);
    forall c ensures c in Missing(r, offered) <==> c in r && !Delivered(c, av) {
      DeliveredIsDeliverable(c, av);
    }
    hide IsOffered, Delivered, Missing, Deliverable;
    forall i | 0 <= i < |r| ensures IsOffered(r[i], offered) <==> Delivered(r[i], av) {
      DeliveredIsDeliverable(r[i], av);
    }
  }

  lemma OwnHour(r: seq<Clock>, flagged: seq<Clock>, av: Availability, customer: Text)
    requires forall c :: c in flagged <==> c in r && !Delivered(c, av)
    requires Times(customer) == Readings(customer, [])
    ensures NamedBy(flagged, customer) <==> CustomersOwn(r, av, customer)
  {
    hide Delivered, Readings, Times;
    var own := Readings(customer, []);
    if NamedBy(flagged, customer) {
      var c, d :| c in flagged && d in own && KeyOf(c) == KeyOf(d);
      var i :| 0 <= i < |r| && r[i] == c;
      var j :| 0 <= j < |own| && own[j] == d;
      assert MinuteOf(own[j]) == MinuteOf(r[i]);
    }
    if CustomersOwn(r, av, customer) {
      var i, j :| 0 <= i < |r| && 0 <= j < |own| && !Delivered(r[i], av) && MinuteOf(own[j]) == MinuteOf(r[i]);
      assert r[i] in flagged && own[j] in Times(customer);
    }
  }

  // ---------------------------------------------------------------- the conversation

  /** An assistant's offer names two different minutes; a customer names a time with any reading at all. */
  lemma OffersAndNamesExactly(m: Message)
    ensures Enumerates(m) <==> m.role == Assistant && exists i, j ::
      0 <= i < j < |Readings(m.text, [])| && MinuteOf(Readings(m.text, [])[i]) != MinuteOf(Readings(m.text, [])[j])
    ensures NamesTime(m) <==> m.role == User && Readings(m.text, []) != []
  {
    TimesOf(m.text);
  }

  // ---------------------------------------------------------------- the day and hour the customer named

  /** The slot starts at a minute the clock can mean, on a date and a weekday among those named, if any are. */
  predicate Fits(s: Slot, c: Clock, days: Days) {
    && s.valid && CanMean(c, s.minutes)
    && (days.dates == {} || s.date in days.dates) && (days.weekdays == {} || s.weekday in days.weekdays)
  }

  /** A slot of a named day, any hour. */
  predicate ThatDay(s: Slot, days: Days) {
    && (days.dates != {} || days.weekdays != {} ==> s.valid)
    && (days.dates == {} || s.date in days.dates) && (days.weekdays == {} || s.weekday in days.weekdays)
  }

  lemma DaysAndHoursExactly(s: Slot, c: Clock, days: Days)
    ensures OnDay(s, days) <==> ThatDay(s, days)
    ensures Candidate(s, c, days) <==> Fits(s, c, days)
    ensures forall now :: BookableAt(s, c, now) <==> s.valid && CanMean(c, s.minutes) && now <= s.at
  {
  }

  /**
   An hour was refused exactly when the text names one minute, not like a price, that fits no slot still to
   come; and, if it names no day, when the slots parse and none of them, past ones included, is at that hour.
   */
  lemma HourIsRefusedExactly(text: Text, days: Days, slots: seq<Slot>, now: int)
    ensures RefusedHour(text, days, slots, now) <==>
      var r := Readings(text, []);
      && OneMinute(r) && !LikeAPrice(r[0])
      && (forall i :: 0 <= i < |slots| && Fits(slots[i], r[0], days) ==> slots[i].at < now)
      && (days.dates == {} && days.weekdays == {} ==> !AllParse(slots) || !Hits(r[0], slots, |slots|))
  {
    TimesOf(text);
    if SingleTime(text).Some? {
      var c := SingleTime(text).value;
      OfferedIsHit(c, slots);
      forall i | 0 <= i < |slots| ensures Candidate(slots[i], c, days) <==> Fits(slots[i], c, days) {
        DaysAndHoursExactly(slots[i], c, days);
      }
    }
  }

  function Apart(a: Minutes, b: Minutes): Minutes {
    if a < b then b - a else a - b
  }

  /** By distance from the hour, then by the hour itself, then by position: what makes one slot the nearest. */
  predicate ComesFirst(slots: seq<Slot>, k: nat, i: nat, hour: Minutes)
    requires k < |slots| && i < |slots|
  {
    var a, b := slots[k].minutes, slots[i].minutes;
    || Apart(a, hour) < Apart(b, hour)
    || (Apart(a, hour) == Apart(b, hour) && a < b)
    || (Apart(a, hour) == Apart(b, hour) && a == b && k <= i)
  }

  /** The window's head is the slot of that day that comes first so, and the window is the next eight slots from it. */
  lemma NearestComesFirst(slots: seq<Slot>, k: nat, c: Clock, days: Days)
    requires k < |slots|
    ensures IsNearest(slots, k, c, days) <==>
      ThatDay(slots[k], days)
      && forall i :: 0 <= i < |slots| && ThatDay(slots[i], days) ==> ComesFirst(slots, k, i, MinuteOf(c))
    ensures |Window(slots, k)| == (if |slots| - k < 8 then |slots| - k else 8)
    ensures forall j :: 0 <= j < |Window(slots, k)| ==> Window(slots, k)[j] == slots[k + j]
  {
    forall i | 0 <= i < |slots|
      ensures OnDay(slots[i], days) <==> ThatDay(slots[i], days)
      ensures i >= k ==> (Nearer(slots[i], slots[k], c) <==> !ComesFirst(slots, k, i, MinuteOf(c)))
      ensures i < k ==> (Nearer(slots[k], slots[i], c) <==> ComesFirst(slots, k, i, MinuteOf(c)))
      ensures ComesFirst(slots, k, i, MinuteOf(c)) ==> !Nearer(slots[i], slots[k], c)
    {
      DaysAndHoursExactly(slots[i], c, days);
    }
  }
}
