/**
 The start time a booking call sends, read against what was offered and what the customer named, before the
 create gate remembers it. `instant` is the date parser; `clockOf` the offered zone's clock of an instant.
 */
module BookingTimes {
  import opened Wrappers
  import opened WallClock
  import ConfirmationGates

  /** The session's offered slots. */
  datatype OfferedSlots = OfferedSlots(starts: seq<string>, instant: string -> Option<int>, clockOf: int -> string)

  predicate Near(a: int, b: int) {
    -1000 < a - b < 1000
  }

  predicate IsOfferedInstant(o: OfferedSlots, at: int) {
    exists i :: 0 <= i < |o.starts| && o.instant(o.starts[i]).Some? && Near(o.instant(o.starts[i]).value, at)
  }

  /** An instant stands only if it was offered and does not contradict an hour the customer named. */
  predicate Stands(o: Option<OfferedSlots>, named: set<string>, value: string) {
    && o.Some? && o.value.instant(value).Some?
    && var at := o.value.instant(value).value;
    && IsOfferedInstant(o.value, at) && (named == {} || o.value.clockOf(at) in named)
  }

  /** The string without its one trailing offset. */
  function Stripped(value: string): (r: string)
    requires EndsWithOffset(value)
    ensures |r| < |value| && r == value[..|r|]
  {
    if value[|value| - 1] == 'Z' || value[|value| - 1] == 'z' then value[..|value| - 1]
    else if |value| >= 6 && IsSign(value[|value| - 6]) && ClockAt(value, |value| - 5) then value[..|value| - 6]
    else value[..|value| - 5]
  }

  function Resolved(o: Option<OfferedSlots>, named: set<string>, value: string): string {
    if !EndsWithOffset(value) || Stands(o, named, value) then value else Stripped(value)
  }

  /** Some offered start is within a second of the value, at an hour that is not another than the customer named. */
  predicate Backed(o: Option<OfferedSlots>, named: set<string>, value: string) {
    && o.Some? && o.value.instant(value).Some?
    && (named != {} ==> o.value.clockOf(o.value.instant(value).value) in named)
    && exists i :: 0 <= i < |o.value.starts| && Within(o.value, o.value.starts[i], o.value.instant(value).value)
  }

  predicate Within(o: OfferedSlots, start: string, at: int) {
    o.instant(start).Some? && -1000 < o.instant(start).value - at < 1000
  }

  predicate CutTo(value: string, template: string, r: string) {
    EndsIn(value, template) && r == value[..|value| - |template|]
  }

  /**
   The value the booking goes on with: whole, if it has no offset or its instant is backed; else without its
   offset.
   */
  lemma OffsetIsKeptExactly(o: Option<OfferedSlots>, named: set<string>, value: string)
    ensures Resolved(o, named, value) == value <==> !HasOffset(value) || Backed(o, named, value)
    ensures Resolved(o, named, value) != value ==>
      exists n :: 0 <= n < |OFFSETS| && CutTo(value, OFFSETS[n], Resolved(o, named, value))
  {
    ShapesAreTemplates(value, 0);
    EndsMatch(value);
    assert OFFSETS[0] == "Z" && OFFSETS[1] == "z" && OFFSETS[2] == "+dd:dd" && OFFSETS[3] == "-dd:dd";
    assert OFFSETS[4] == "+dddd" && OFFSETS[5] == "-dddd";
    assert Stands(o, named, value) <==> Backed(o, named, value);
  }

  /** The search over the offered starts. */
  method ResolveBookingTime(o: Option<OfferedSlots>, named: set<string>, value: string) returns (r: string)
    ensures r == Resolved(o, named, value)
  {
    if !EndsWithOffset(value) { return value; }
    if o.Some? && o.value.instant(value).Some? {
      var at, found, i := o.value.instant(value).value, false, 0;
      while i < |o.value.starts| && !found
        invariant 0 <= i <= |o.value.starts|
        invariant found
          <==> exists j ::
            0 <= j < i && o.value.instant(o.value.starts[j]).Some? && Near(o.value.instant(o.value.starts[j]).value, at)
      {
        found := o.value.instant(o.value.starts[i]).Some? && Near(o.value.instant(o.value.starts[i]).value, at);
        i := i + 1;
      }
      if found && (named == {} || o.value.clockOf(at) in named) { return value; }
    }
    return Stripped(value);
  }

  /** An offset stands clear of the sixteen characters of a date and clock in front of it. */
  lemma StrippingKeepsTheDigits(value: string)
    requires DateClockAt(value, 0) && EndsWithOffset(value)
    ensures DateClockAt(Stripped(value), 0) && Stripped(value)[..16] == value[..16]
  {
    var r := Stripped(value);
    assert |r| >= 16;
    assert forall i :: 0 <= i < 16 ==> r[i] == value[i];
  }

  /** The zone reads `s` as an instant at another date or clock than the one in its digits. */
  predicate ReadElsewhere(zoned: Zoned, s: string, digits: string) {
    EndsWithOffset(s) && zoned(s).Some? && zoned(s).value != digits
  }

  lemma KeyIsDigits(zoned: Zoned, s: string)
    requires DateClockAt(s, 0)
    ensures Key(zoned, s) == s[..16] <==> !ReadElsewhere(zoned, s, s[..16])
  {
    assert FirstDateClock(s, 0) == Some(0);
    assert s[0..16] == s[..16];
  }

  /**
   What the gate remembers of a dated start time is its own date and clock exactly when the zone does not read
   it elsewhere: neither an offered instant, which is kept, nor what is left behind one stripped offset.
   */
  lemma RemembersTheDigits(w: ConfirmationGates.Words, zoned: Zoned, o: Option<OfferedSlots>, named: set<string>,
                           value: string, name: string, service: string)
    requires DateClockAt(value, 0)
    ensures var sent := ConfirmationGates.CreateArgs(Resolved(o, named, value), name, service);
      ConfirmationGates.CreateDetails(w, zoned, sent).startTime == value[..16]
      <==> !EndsWithOffset(value)
           || (if Stands(o, named, value) then !ReadElsewhere(zoned, value, value[..16])
               else !ReadElsewhere(zoned, Stripped(value), value[..16]))
  {
    if EndsWithOffset(value) {
      StrippingKeepsTheDigits(value);
    }
    KeyIsDigits(zoned, Resolved(o, named, value));
  }

  /** Such values exist: behind a `Z` nobody offered, the offset in front of it is still read as an instant. */
  lemma DoubledOffsetSurvives(w: ConfirmationGates.Words, zoned: Zoned, o: Option<OfferedSlots>, named: set<string>,
                              value: string, doubled: string, name: string, service: string)
    requires DateClockAt(value, 0) && EndsWithOffset(value) && zoned(value).Some?
    requires doubled == value + ['Z'] && !Stands(o, named, doubled)
    ensures var sent := ConfirmationGates.CreateArgs(Resolved(o, named, doubled), name, service);
      ConfirmationGates.CreateDetails(w, zoned, sent).startTime == zoned(value).value
  {
    assert doubled[|doubled| - 1] == 'Z';
    assert doubled[..|doubled| - 1] == value;
  }

  /**
   The gate sees one booking: a documented local time, and the same digits echoed with an offset that does
   not stand, are remembered under the same key, the digits' own date and clock.
   */
  lemma BothSpellingsAreOneBooking(w: ConfirmationGates.Words, zoned: Zoned, o: Option<OfferedSlots>,
                                   named: set<string>,
                                   local: string, echoed: string, name: string, service: string)
    requires DateClockAt(local, 0) && !EndsWithOffset(local)
    requires EndsWithOffset(echoed) && Stripped(echoed) == local && !Stands(o, named, echoed)
    ensures var one :=
      ConfirmationGates.CreateDetails(w, zoned, ConfirmationGates.CreateArgs(Resolved(o, named, local), name, service));
      var two := ConfirmationGates.CreateDetails(w, zoned,
        ConfirmationGates.CreateArgs(Resolved(o, named, echoed), name, service));
      one == two && one.startTime == local[..16]
  {
    DocumentedShapeIsStable(zoned, local);
  }
}
