/** The gates as they run: one conversation's records, read, overwritten and cleared in place. */
module ConversationStore {
  import opened Wrappers
  import opened ConfirmationGates
  import opened PendingRecords
  import WallClock

  /** The last line that is a user's and no internal note, searched from the end. */
  method LastCustomerLine(w: Words, h: History) returns (line: int)
    ensures line == LastLine(w, h)
  {
    line := |h| - 1;
    while line >= 0 && !CustomerLine(w, h[line])
      invariant -1 <= line < |h|
      invariant LastLine(w, h) == LastLine(w, h[..line + 1])
    {
      assert h[..line + 1][..line] == h[..line];
      line := line - 1;
    }
    if line >= 0 {
      assert h[..line + 1][line] == h[line];
    }
  }

  method LastCustomerUtterance(w: Words, h: History) returns (last: string)
    ensures last == LastUtterance(w, h)
  {
    var line := LastCustomerLine(w, h);
    last := if line < 0 then "" else w.trim(h[line].text);
  }

  method SummaryWasAsked(w: Words, h: History, startTime: string) returns (asked: bool)
    ensures asked == SummaryAsked(w, h, startTime)
  {
    var lastUser := LastCustomerLine(w, h);
    if lastUser < 0 { return false; }
    for i := 0 to lastUser
      invariant forall j :: 0 <= j < i && h[j].role == Assistant && Question(w, h[j].text) ==>
        !w.namesDateAndClock(h[j].text, startTime)
    {
      if h[i].role == Assistant && Question(w, h[i].text) {
        if w.namesDateAndClock(h[i].text, startTime) { return true; }
      }
    }
    return false;
  }

  method SummaryCarriedMove(w: Words, h: History, startTime: string, address: string) returns (carried: bool)
    ensures carried == SummaryCarried(w, h, startTime, address)
  {
    var needle := w.trim(w.squashed(address));
    if !w.hasClock(startTime) || needle == "" { return false; }
    var lastUser := LastCustomerLine(w, h);
    if lastUser < 0 { return false; }
    for i := 0 to lastUser
      invariant forall j :: 0 <= j < i && h[j].role == Assistant && Question(w, h[j].text) ==>
        !(Contains(w.squashed(h[j].text), needle) && w.namesClock(h[j].text, startTime))
    {
      if h[i].role == Assistant && Question(w, h[i].text) {
        if Contains(w.squashed(h[i].text), needle) {
          if w.namesClock(h[i].text, startTime) { return true; }
        }
      }
    }
    return false;
  }

  method MoveWasAgreed(w: Words, h: History, p: Pending, last: string) returns (agreed: bool)
    ensures agreed == MoveAgreed(w, h, p, last)
  {
    if p.address.Some? {
      if !w.affirmative(last) { return false; }
      agreed := SummaryCarriedMove(w, h, p.startTime, p.address.value);
    } else {
      if w.chip(last, p.startTime) { return true; }
      if !w.affirmative(last) { return false; }
      agreed := SummaryWasAsked(w, h, p.startTime);
    }
  }

  class Conversation {
    var create: Option<Pending>
    var move: Option<Pending>
    var cancel: Option<Pending>

    method RefuseUnlessConfirmed(w: Words, zoned: WallClock.Zoned, a: CreateArgs, h: History, redis: Redis)
      returns (answer: Answer)
      modifies this`create
      ensures (create, answer) == CreateGate(w, zoned, old(create), a, h, redis)
    {
      var last := LastCustomerUtterance(w, h);
      if last == "" { return Proceed; }
      if !redis.canRead { return Proceed; }
      var details := CreateDetails(w, zoned, a);
      var confirmed := false;
      if create.Some? && SameCreate(w, create.value, details) {
        confirmed := w.chip(last, create.value.startTime);
        if !confirmed && w.affirmative(last) {
          confirmed := SummaryWasAsked(w, h, create.value.startTime);
        }
      }
      if confirmed {
        if redis.canDelete { create := None; }
        return Proceed;
      }
      if !redis.canWrite { return Proceed; }
      create := Some(details);
      return Refuse;
    }

    method RefuseUnlessRescheduleConfirmed(w: Words, zoned: WallClock.Zoned, a: MoveArgs, h: History, redis: Redis)
      returns (verdict: MoveAnswer)
      modifies this`move
      ensures (move, verdict) == MoveGate(w, zoned, old(move), a, h, redis)
    {
      var last := LastCustomerUtterance(w, h);
      if last == "" { return MoveAnswer(Proceed, None); }
      if !redis.canRead { return MoveAnswer(Proceed, None); }
      var asked := MoveDetails(w, zoned, a);
      var confirmed := false;
      if move.Some? && SameMove(move.value, asked) {
        confirmed := MoveWasAgreed(w, h, move.value, last);
      }
      if confirmed {
        verdict := MoveAnswer(Proceed, if asked.address.Some? then asked.address else move.value.address);
        if redis.canDelete { move := None; }
        return;
      }
      if !redis.canWrite { return MoveAnswer(Proceed, None); }
      move := Some(asked);
      return MoveAnswer(Refuse, None);
    }

    method RefuseCreateWhileMovePending(redis: Redis) returns (answer: Answer)
      modifies this`move
      ensures (move, answer) == CreateWhileMoving(old(move), redis)
    {
      if !redis.canRead { return Proceed; }
      if move.None? || move.value.bookingId == "" { return Proceed; }
      if redis.canDelete { move := None; }
      return Refuse;
    }

    method RefuseUnlessCancelConfirmed(w: Words, bookingId: string, h: History, redis: Redis) returns (answer: Answer)
      modifies this`cancel
      ensures (cancel, answer) == CancelGate(w, old(cancel), bookingId, h, redis)
    {
      var last := LastCustomerUtterance(w, h);
      if last == "" || !redis.canRead { return Proceed; }
      if cancel.Some? && cancel.value.kind == Some(Cancel) && cancel.value.bookingId == bookingId
         && (w.affirmative(last) || w.chip(last, cancel.value.startTime)) {
        if redis.canDelete { cancel := None; }
        return Proceed;
      }
      if !redis.canWrite { return Proceed; }
      cancel := Some(CancelDetails(bookingId));
      return Refuse;
    }

    method PendingYesNeedsReschedule(w: Words, h: History, canRead: bool) returns (agreed: Option<MoveArgs>)
      ensures agreed == AgreedMove(w, move, h, canRead)
    {
      var last := LastCustomerUtterance(w, h);
      if last == "" || !canRead || move.None? { return None; }
      var p := move.value;
      if p.kind != Some(Reschedule) || p.bookingId == "" { return None; }
      var yes := MoveWasAgreed(w, h, p, last);
      if !yes { return None; }
      return Some(MoveArgs(p.bookingId, WallClock.WithSeconds(p.startTime), p.address));
    }
  }
}
