/**
 The agent's turn loop as it runs: budget, provider call, tools or reply guards, at most ten times. Each
 method updates the run's state in place; the ghost fields log what happened, and the contracts say what
 the state, the message stack and the result owe to that log.
 */
module AgentLoop {
  import opened Wrappers
  import opened AgentModel
  import ReplyTimes

  datatype Verdict = Content(text: string) | Retry | Done(result: Result)

  class RunLoop {
    const world: World
    const words: Words
    const setup: Setup

    var messages: seq<Message>
    var toolsCalled: set<ToolName>
    var sideEffectsInvoked: set<(ToolName, string)>
    var claims: Claims
    var address: Address
    var offer: OnOffer
    var addressCorrectionOnly: bool
    /** The seven one-shot retry flags, by the guard they belong to. */
    var attempted: set<Nudge>
    var executions: nat

    /**
     Calls the tool turns asked for; those executed; those that returned; at each provider call the stack, and
     whether the tools were withheld; the retries guards asked for.
     */
    ghost var asked: seq<ToolCall>
    ghost var tried: seq<ToolCall>
    ghost var done: seq<Execution>
    ghost var stacks: seq<seq<Message>>
    ghost var withheld: seq<bool>
    ghost var nudges: seq<Nudge>

    constructor (world: World, words: Words, setup: Setup)
      requires Paired(setup.opening)
      ensures this.world == world && this.words == words && this.setup == setup
      ensures Ready() && asked == [] && stacks == [] && withheld == [] && nudges == []
    {
      this.world, this.words, this.setup := world, words, setup;
      messages, toolsCalled, sideEffectsInvoked := setup.opening, {}, {};
      claims := Claims(false, false, setup.requestOnRecord, false, false);
      address, offer := Address(None, false), OnOffer(None, false);
      addressCorrectionOnly, attempted, executions := false, {}, 0;
      asked, tried, done, stacks, withheld, nudges := [], [], [], [], [], [];
    }

    /** The state is the account of what was executed, and nothing was executed out of turn. */
    ghost predicate Recorded()
      reads this`toolsCalled, this`sideEffectsInvoked, this`claims, this`address, this`offer, this`executions,
        this`tried, this`done
    {
      && toolsCalled == Called(done) && sideEffectsInvoked == Signatures(done, setup.tools)
      && claims == ClaimsOf(setup, done) && address == AddressOf(words, done) && offer == Offered(done)
      && Disciplined(done, setup.tools) && executions == |tried| && done == CameBack(world, tried)
    }

    /** Every stack a provider saw was well formed, and no guard retried twice. */
    ghost predicate Orderly()
      reads this`stacks, this`nudges, this`attempted
    {
      && (forall k :: 0 <= k < |stacks| ==> Paired(stacks[k]))
      && (forall n :: n in nudges <==> n in attempted)
      && (forall i, j :: 0 <= i < j < |nudges| ==> nudges[i] != nudges[j])
    }

    // -------------------------------------------------------------- tools

    /** A failed side effect stays retryable: only success marks it. */
    method MarkCalled(c: ToolCall, r: ToolResult)
      requires c.tool in setup.tools
      modifies this`toolsCalled, this`sideEffectsInvoked
      ensures toolsCalled == old(toolsCalled) + {c.tool}
      ensures sideEffectsInvoked
        == if SideEffect(Execution(c.tool, c.args, r), setup.tools) then old(sideEffectsInvoked) + {(c.tool, c.args)}
          else old(sideEffectsInvoked)
    {
      toolsCalled := toolsCalled + {c.tool};
      if setup.tools[c.tool].sideEffects && r.success { sideEffectsInvoked := sideEffectsInvoked + {(c.tool, c.args)}; }
    }

    /** What a result that came back changes about the run's own state. */
    method AbsorbToolResult(c: ToolCall, r: ToolResult)
      modifies this`claims, this`address, this`offer
      ensures claims == ClaimsAfter(setup, old(claims), Execution(c.tool, c.args, r))
      ensures address == AddressAfter(words, old(address), Execution(c.tool, c.args, r))
      ensures offer == OfferAfter(old(offer), Execution(c.tool, c.args, r))
    {
      if c.tool.EscalateToHuman? && r.success && setup.botOwned { claims := claims.(escalationRequested := true); }
      AbsorbRecordedOutcome(c, r);
      if c.tool.CheckAvailability? { claims := claims.(availabilityChecked := true); }
      AbsorbAddress(c, r);
      AbsorbAvailability(c, r);
    }

    method AbsorbAddress(c: ToolCall, r: ToolResult)
      modifies this`address
      ensures address == AddressAfter(words, old(address), Execution(c.tool, c.args, r))
    {
      if r.success && r.fact.Some? {
        var merged := MergeFacts(words, address.fact, r.fact.value);
        address := Address(Some(merged.0), address.conflict || merged.1);
      }
    }

    method AbsorbAvailability(c: ToolCall, r: ToolResult)
      modifies this`offer
      ensures offer == OfferAfter(old(offer), Execution(c.tool, c.args, r))
    {
      if c.tool.CheckAvailability? && r.success && !r.offer.NoOffer? {
        if r.offer.Slots? { offer := offer.(availability := Some(r.offer.av)); }
        if r.confirmExisting { offer := OnOffer(None, true); }
      } else if IsMutation(c.tool) && r.success {
        offer := offer.(availability := None);
      }
    }

    /** What the result lets the reply claim: three separate facts. */
    method AbsorbRecordedOutcome(c: ToolCall, r: ToolResult)
      modifies this`claims
      ensures var e, was := Execution(c.tool, c.args, r), old(claims);
        claims == was.(bookingRecorded := was.bookingRecorded || (IsMutation(c.tool) && r.success && !IsRequest(e)),
                       bookingToolSucceeded := was.bookingToolSucceeded || (IsMutation(c.tool) && r.success),
                       requestRecorded := was.requestRecorded || RecordsRequest(e))
    {
      if !r.success { return; }
      if c.tool.CaptureLead? {
        if r.captured { claims := claims.(requestRecorded := true); }
        return;
      }
      if c.tool.EscalateToHuman? {
        claims := claims.(requestRecorded := true);
        return;
      }
      if !IsMutation(c.tool) { return; }
      claims := claims.(bookingToolSucceeded := true);
      if c.tool.RequestAppointment? || r.requested {
        claims := claims.(requestRecorded := true);
      } else {
        claims := claims.(bookingRecorded := true);
      }
    }

    /** One execution that returned, taken into the run's state and into the log. */
    method RecordExecution(c: ToolCall, r: ToolResult, payloadThrows: bool)
      requires Recorded() && c.tool in setup.tools && setup.tools[c.tool].needs <= toolsCalled
      requires setup.tools[c.tool].sideEffects ==> (c.tool, c.args) !in sideEffectsInvoked
      requires world.tool(executions, c) == Returned(r, payloadThrows)
      modifies this`executions, this`tried, this`done, this`toolsCalled, this`sideEffectsInvoked, this`claims,
        this`address, this`offer
      ensures Recorded() && tried == old(tried) + [c] && done == old(done) + [Execution(c.tool, c.args, r)]
    {
      hide Called, Signatures, ClaimsOf, ClaimsAfter, AddressOf, AddressAfter, Offered, OfferAfter, Disciplined,
        CameBack,
        SideEffect;
      ghost var e := Execution(c.tool, c.args, r);
      DisciplineExtends(done, e, setup.tools);
      MarkCalled(c, r);
      AbsorbToolResult(c, r);
      RecordsGrow(words, setup, done, e);
      TryOneMore(world, tried, c);
      executions, tried, done := executions + 1, tried + [c], done + [e];
    }

    /** A permitted call runs its tool, once, and its answer is the tool's. */
    method PerformToolCall(c: ToolCall) returns (p: Payload)
      requires Recorded() && c.tool in setup.tools && setup.tools[c.tool].needs <= toolsCalled
      requires setup.tools[c.tool].sideEffects ==> (c.tool, c.args) !in sideEffectsInvoked
      modifies this`executions, this`tried, this`done, this`toolsCalled, this`sideEffectsInvoked, this`claims,
        this`address, this`offer
      ensures Recorded() && tried == old(tried) + [c]
      ensures var outcome := world.tool(|old(tried)|, c);
        if outcome.ToolThrew? then p == Unavailable && done == old(done)
        else p == (if outcome.payloadThrows then Unavailable else ResultPayload(outcome.result))
             && done == old(done) + [Execution(c.tool, c.args, outcome.result)]
    {
      var outcome := world.tool(executions, c);
      match outcome {
        case ToolThrew =>
          TryOneMore(world, tried, c);
          executions, tried := executions + 1, tried + [c];
          return Unavailable;
        case Returned(r, payloadThrows) =>
          RecordExecution(c, r, payloadThrows);
          return if payloadThrows then Unavailable else ResultPayload(r);
      }
    }

    /**
     One tool call: preconditions, the per-run dedupe, then execution. It is executed exactly when nothing stands
     against it, what came back is recorded, and there is exactly one answer on every path.
     */
    method ExecuteToolCall(c: ToolCall)
      requires Recorded() && Answered()
      modifies this`messages, this`executions, this`asked, this`tried, this`done, this`toolsCalled,
               this`sideEffectsInvoked, this`claims, this`address, this`offer
      ensures Recorded() && Answered() && asked == old(asked) + [c]
      ensures messages == old(messages) + [ToolMessage(c.id, AnswerTo(world, setup.tools, old(tried), c))]
      ensures tried == if Permitted(old(done), setup.tools, c) then old(tried) + [c] else old(tried)
      ensures done
        == if Permitted(old(done), setup.tools, c) && world.tool(|old(tried)|, c).Returned?
           then old(done) + [Execution(c.tool, c.args, world.tool(|old(tried)|, c).result)] else old(done)
    {
      hide Recorded, Permitted, AnswerTo, CameBack, TriedOf, AnswersOf, PayloadsIn;
      DoneCameBack();
      var payload := DecideToolCall(c);
      AskOneMore(world, setup.tools, asked, c);
      ReadOneMore(messages, ToolMessage(c.id, payload));
      asked := asked + [c];
      messages := messages + [ToolMessage(c.id, payload)];
    }

    lemma DoneCameBack()
      requires Recorded()
      ensures done == CameBack(world, tried)
    {
    }

    /** The three refusals, then the tool itself. */
    method DecideToolCall(c: ToolCall) returns (p: Payload)
      requires Recorded()
      modifies this`executions, this`tried, this`done, this`toolsCalled, this`sideEffectsInvoked, this`claims,
               this`address, this`offer
      ensures Recorded() && p == AnswerTo(world, setup.tools, old(tried), c)
      ensures tried == if Permitted(old(done), setup.tools, c) then old(tried) + [c] else old(tried)
      ensures done
        == if Permitted(old(done), setup.tools, c) && world.tool(|old(tried)|, c).Returned?
           then old(done) + [Execution(c.tool, c.args, world.tool(|old(tried)|, c).result)] else old(done)
    {
      if c.tool !in setup.tools { return UnknownTool; }
      SetsDecide(done, setup.tools, c);
      var spec := setup.tools[c.tool];
      if !(spec.needs <= toolsCalled) { return MissingPrecondition; }
      if spec.sideEffects && (c.tool, c.args) in sideEffectsInvoked { return AlreadyPerformed; }
      p := PerformToolCall(c);
    }

    /** Each call asked for was executed or refused as it had to be, and the stack holds its answer. */
    ghost predicate Answered()
      reads this`messages, this`asked, this`tried
    {
      && tried == TriedOf(world, setup.tools, asked)
      && PayloadsIn(messages) == PayloadsIn(setup.opening) + AnswersOf(world, setup.tools, asked)
    }

    /** The stack holds every call asked for, with its answer. */
    ghost predicate Told()
      reads this`messages, this`asked, this`tried
    {
      Answered() && CallsIn(messages) == CallsIn(setup.opening) + asked
    }

    /** The assistant's tool turn, answered call by call. */
    method ProcessToolCalls(text: string, calls: seq<ToolCall>)
      requires Recorded() && Paired(messages) && Told()
      modifies this`messages, this`executions, this`asked, this`tried, this`done, this`toolsCalled,
               this`sideEffectsInvoked, this`claims, this`address, this`offer
      ensures Recorded() && Paired(messages) && Told() && asked == old(asked) + calls
      ensures old(messages) + [Assistant(text, calls)] <= messages && |messages| == |old(messages)| + 1 + |calls|
    {
      hide Recorded, Paired, AnswerTo, Permitted, TriedOf, AnswersOf, CameBack, CallsIn, PayloadsIn;
      ghost var before, was := messages, asked;
      ghost var turn := before + [Assistant(text, calls)];
      ReadOneMore(before, Assistant(text, calls));
      messages := messages + [Assistant(text, calls)];
      ghost var answers := AnswerCalls(calls);
      AnsweredTurn(before, text, calls, answers);
      AnswersAskNothing(answers, calls);
      ReadAppends(turn, answers);
    }

    /** The loop over the turn's calls. */
    method AnswerCalls(calls: seq<ToolCall>) returns (ghost answers: seq<Message>)
      requires Recorded() && Answered()
      modifies this`messages, this`executions, this`asked, this`tried, this`done, this`toolsCalled,
               this`sideEffectsInvoked, this`claims, this`address, this`offer
      ensures Recorded() && Answered() && asked == old(asked) + calls
      ensures messages == old(messages) + answers && AreAnswers(answers, calls)
    {
      hide Recorded, Answered, AnswerTo, Permitted, AreAnswers;
      answers := [];
      assert AreAnswers([], calls[..0]) by { NoAnswers(calls); }
      for j := 0 to |calls|
        invariant Recorded() && Answered() && asked == old(asked) + calls[..j]
        invariant messages == old(messages) + answers && AreAnswers(answers, calls[..j])
      {
        ghost var payload := AnswerTo(world, setup.tools, tried, calls[j]);
        AreOneMore(answers, calls, j, payload);
        ExecuteToolCall(calls[j]);
        answers := answers + [ToolMessage(calls[j].id, payload)];
        assert calls[..j + 1] == calls[..j] + [calls[j]];
      }
      assert calls[..|calls|] == calls;
    }

    // -------------------------------------------------------------- reply guards

    predicate MayNudge(n: Nudge, i: nat)
      reads this`attempted
    {
      n !in attempted && i < MAX_ITERATIONS - 1
    }

    /** Tools are withheld from the moment an address correction is asked for. */
    ghost predicate Correcting()
      reads this`addressCorrectionOnly, this`attempted, this`stacks, this`withheld
    {
      && (addressCorrectionOnly <==> AddressNudge in attempted) && |withheld| == |stacks|
      && (forall k :: 0 <= k < |withheld| && withheld[k] ==> AddressNudge in attempted)
    }

    ghost predicate Ready()
      reads this`toolsCalled, this`sideEffectsInvoked, this`claims, this`address, this`offer, this`executions,
        this`tried, this`done, this`stacks, this`nudges, this`attempted, this`messages, this`asked,
        this`addressCorrectionOnly, this`withheld
    {
      Recorded() && Orderly() && Paired(messages) && Told() && Correcting()
    }

    /** One more iteration: what was said, then a note to the model. */
    method AskAgain(n: Nudge, said: string)
      requires Ready() && n !in attempted
      modifies this`messages, this`attempted, this`nudges, this`addressCorrectionOnly
      ensures Ready() && attempted == old(attempted) + {n} && nudges == old(nudges) + [n]
      ensures messages == old(messages) + [Assistant(said, []), User(words.nudge(n))]
      ensures n != AddressNudge ==> addressCorrectionOnly == old(addressCorrectionOnly)
    {
      hide Recorded, Paired, CallsIn, PayloadsIn, TriedOf, AnswersOf;
      PlainPair(messages, said, words.nudge(n));
      PairReads(messages, said, words.nudge(n));
      messages := messages + [Assistant(said, []), User(words.nudge(n))];
      attempted := attempted + {n};
      nudges := nudges + [n];
      if n == AddressNudge { addressCorrectionOnly := true; }
    }

    predicate AddressHeld(text: string)
      reads this`address
    {
      !address.conflict && (address.fact.Some? ==> StatesAddress(words, text, address.fact.value))
    }

    /** The fixed reply is true of the run as it stands. */
    predicate Due(f: Fallback, i: nat, chips: bool)
      reads this`claims, this`address, this`offer, this`attempted
    {
      Warranted(setup, f, chips, i, claims, address, offer, attempted)
    }

    /** The text is the fixed reply about addresses that is due, whatever is on screen. */
    predicate AddressFixed(i: nat, text: string)
      reads this`claims, this`address, this`offer, this`attempted
    {
      || (text == words.fallback(AddressConflict) && Due(AddressConflict, i, false))
      || (address.fact.Some? && text == words.fallback(AddressSafe(address.fact.value))
          && Due(AddressSafe(address.fact.value), i, false))
    }

    /** A reply that states an address the booking was not made for. */
    method ApplyAddressGuard(i: nat, content: string) returns (v: Verdict)
      requires Ready()
      modifies this`messages, this`attempted, this`nudges, this`addressCorrectionOnly
      ensures Ready() && !v.Done?
      ensures AddressHeld(content) ==> v == Content(content)
      ensures v.Retry? <==> !address.conflict && !AddressHeld(content) && old(MayNudge(AddressNudge, i))
      ensures v.Content? ==> AddressFixed(i, v.text) || (v.text == content && AddressHeld(content))
      ensures if v.Retry? then nudges == old(nudges) + [AddressNudge]
        else messages == old(messages) && attempted == old(attempted) && nudges == old(nudges)
    {
      hide Ready;
      if address.conflict { return Content(words.fallback(AddressConflict)); }
      if address.fact.None? || StatesAddress(words, content, address.fact.value) { return Content(content); }
      if MayNudge(AddressNudge, i) {
        AskAgain(AddressNudge, content);
        return Retry;
      }
      return Content(words.fallback(AddressSafe(address.fact.value)));
    }

    predicate Outruns(text: string)
      reads this`claims
    {
      words.claimsBooked(text)
      || (!claims.bookingToolSucceeded
          && (words.claimsBookingRequest(text) || (!claims.requestRecorded && words.claimsRequestSent(text))))
    }

    /** The reply claims no booking beyond the record. */
    predicate BookingHeld(text: string)
      reads this`claims
    {
      setup.bookingGuard && !claims.bookingRecorded ==> !Outruns(text)
    }

    /** Never tell the customer a booking happened unless one was recorded. */
    method ApplyBookingClaimGuard(i: nat, content: string) returns (v: Verdict)
      requires Ready()
      modifies this`messages, this`attempted, this`nudges, this`addressCorrectionOnly
      ensures Ready()
      ensures if BookingHeld(content) then v == Content(content)
        else if old(MayNudge(BookingNudge, i)) then v.Retry?
        else v == Done(Response(words.fallback(BookingSafe), false, None, claims.escalationRequested))
             && Due(BookingSafe, i, false)
      ensures if v.Retry? then nudges == old(nudges) + [BookingNudge]
        else messages == old(messages) && attempted == old(attempted) && nudges == old(nudges)
    {
      hide Ready;
      if !setup.bookingGuard || claims.bookingRecorded || !Outruns(content) { return Content(content); }
      if MayNudge(BookingNudge, i) {
        AskAgain(BookingNudge, content);
        return Retry;
      }
      return Done(Response(words.fallback(BookingSafe), false, None, claims.escalationRequested));
    }

    /** The reply says nothing was forwarded that is not on record. */
    predicate RequestHeld(text: string)
      reads this`claims
    {
      setup.requestGuard && !claims.bookingRecorded && !claims.requestRecorded ==> !words.claimsForwarded(text)
    }

    /** The same for a request said to be forwarded. */
    method ApplyRequestClaimGuard(i: nat, content: string) returns (v: Verdict)
      requires Ready()
      modifies this`messages, this`attempted, this`nudges, this`addressCorrectionOnly
      ensures Ready()
      ensures if RequestHeld(content) then v == Content(content)
        else if old(MayNudge(RequestNudge, i)) then v.Retry?
        else v == Done(Response(words.fallback(RequestSafe), false, None, claims.escalationRequested))
             && Due(RequestSafe, i, false)
      ensures if v.Retry? then nudges == old(nudges) + [RequestNudge]
        else messages == old(messages) && attempted == old(attempted) && nudges == old(nudges)
    {
      hide Ready;
      if !setup.requestGuard || claims.bookingRecorded || claims.requestRecorded || !words.claimsForwarded(content) {
        return Content(content);
      }
      if MayNudge(RequestNudge, i) {
        AskAgain(RequestNudge, content);
        return Retry;
      }
      return Done(Response(words.fallback(RequestSafe), false, None, claims.escalationRequested));
    }

    /** Nothing is pending that this run should still be asked to act on. */
    predicate YesSettled(i: nat)
      reads this`claims, this`attempted, this`messages
    {
      claims.bookingToolSucceeded || !setup.bookingGuard || !MayNudge(PendingYesNudge, i)
        || !world.pendingYes(i, messages)
    }

    /** The customer already said yes, and this turn did not act on it. */
    method ApplyPendingYesGuard(i: nat, content: string) returns (again: bool)
      requires Ready()
      modifies this`messages, this`attempted, this`nudges, this`addressCorrectionOnly
      ensures Ready() && again == !old(YesSettled(i))
      ensures if again then nudges == old(nudges) + [PendingYesNudge]
        else messages == old(messages) && attempted == old(attempted) && nudges == old(nudges)
    {
      hide Ready;
      if claims.bookingToolSucceeded || !setup.bookingGuard { return false; }
      if !MayNudge(PendingYesNudge, i) { return false; }
      if !world.pendingYes(i, messages) { return false; }
      AskAgain(PendingYesNudge, content);
      return true;
    }

    /** The server's own check was made, had been made, or cannot be made. */
    predicate CheckSpent(content: string)
      reads this`claims, this`attempted
    {
      ForcedCheck in attempted || claims.availabilityChecked || CheckAvailability !in setup.tools
        || world.namedDate(content).None?
    }

    predicate DateSettled(i: nat, content: string)
      reads this`claims, this`attempted, this`offer
    {
      || !setup.availabilityGuard || offer.availability.Some? || offer.held || claims.bookingToolSucceeded
      || i >= MAX_ITERATIONS - 1 || !ClaimsUnlooked(world, words, setup, i, content, claims.availabilityChecked)
      || (AvailabilityNudge in attempted && CheckSpent(content))
    }

    /** A named date declared shut, or a manual request offered, when nothing looked. */
    method ApplyAvailabilityClaimGuard(i: nat, content: string) returns (again: bool)
      requires Ready()
      modifies this`messages, this`executions, this`attempted, this`nudges, this`asked, this`tried, this`done,
               this`toolsCalled, this`sideEffectsInvoked, this`claims, this`address, this`offer,
                 this`addressCorrectionOnly
      ensures Ready() && old(asked) <= asked && again == !old(DateSettled(i, content))
      ensures if !again
        then Unmoved(old(messages), old(attempted), old(nudges), old(asked), old(claims), old(address), old(offer))
        else nudges == old(nudges) + [if old(AvailabilityNudge in attempted) then ForcedCheck else AvailabilityNudge]
    {
      hide Ready;
      if !setup.availabilityGuard || offer.availability.Some? || offer.held
        || claims.bookingToolSucceeded {
        return false;
      }
      if i >= MAX_ITERATIONS - 1 { return false; }
      var dated := words.claimsDatedUnavailability(content);
      var manual := !dated && setup.requestOfferGuard && !claims.availabilityChecked
        && words.offersManualRequest(content) && !world.checkedBefore(i);
      if !dated && !manual { return false; }
      if AvailabilityNudge in attempted {
        again := ForceAvailabilityCheck(content);
        return;
      }
      AskAgain(AvailabilityNudge, content);
      return true;
    }

    /** Nothing a guard reads has moved. */
    ghost predicate Unmoved(messages: seq<Message>, attempted: set<Nudge>, nudges: seq<Nudge>, asked: seq<ToolCall>,
                            claims: Claims, address: Address, offer: OnOffer)
      reads this`messages, this`attempted, this`nudges, this`asked, this`claims, this`address, this`offer
    {
      && this.messages == messages && this.attempted == attempted && this.nudges == nudges && this.asked == asked
      && this.claims == claims && this.address == address && this.offer == offer
    }

    /** The server's own call, its answer, and the note that asks to go by it. */
    predicate ForcedTurn(before: seq<Message>, after: seq<Message>, date: string) {
      && before + [Assistant("", [ToolCall(world.forcedId, CheckAvailability, date)])] <= after
      && |after| == |before| + 3 && after[|before| + 2] == User(words.nudge(ForcedCheck))
    }

    /** The one server-authored check a run may issue, for the date the customer named. */
    method ForceAvailabilityCheck(content: string) returns (again: bool)
      requires Ready()
      modifies this`messages, this`executions, this`attempted, this`nudges, this`asked, this`tried, this`done,
               this`toolsCalled, this`sideEffectsInvoked, this`claims, this`address, this`offer,
                 this`addressCorrectionOnly
      ensures Ready() && old(asked) <= asked && again == !old(CheckSpent(content))
      ensures if !again
        then Unmoved(old(messages), old(attempted), old(nudges), old(asked), old(claims), old(address), old(offer))
        else nudges == old(nudges) + [ForcedCheck] && world.namedDate(content).Some?
             && asked == old(asked) + [ToolCall(world.forcedId, CheckAvailability, world.namedDate(content).value)]
             && ForcedTurn(old(messages), messages, world.namedDate(content).value)
    {
      hide Ready;
      if ForcedCheck in attempted || claims.availabilityChecked || CheckAvailability !in setup.tools { return false; }
      var date := world.namedDate(content);
      if date.None? { return false; }
      IssueForcedCheck(date.value);
      return true;
    }

    /** The server's own tool turn, answered like the model's. */
    method IssueForcedCheck(date: string)
      requires Ready() && ForcedCheck !in attempted
      modifies this`messages, this`executions, this`attempted, this`nudges, this`asked, this`tried, this`done,
               this`toolsCalled, this`sideEffectsInvoked, this`claims, this`address, this`offer,
                 this`addressCorrectionOnly
      ensures Ready() && nudges == old(nudges) + [ForcedCheck]
      ensures asked == old(asked) + [ToolCall(world.forcedId, CheckAvailability, date)]
      ensures ForcedTurn(old(messages), messages, date)
    {
      hide Recorded, Paired, CallsIn, PayloadsIn, TriedOf, AnswersOf;
      attempted := attempted + {ForcedCheck};
      nudges := nudges + [ForcedCheck];
      ProcessToolCalls([], [ToolCall(world.forcedId, CheckAvailability, date)]);
      Noted(messages, words.nudge(ForcedCheck));
      ReadOneMore(messages, User(words.nudge(ForcedCheck)));
      messages := messages + [User(words.nudge(ForcedCheck))];
    }

    predicate PromiseKept(text: string)
      reads this`claims, this`offer
    {
      setup.availabilityGuard && !claims.bookingToolSucceeded && words.promisesCheck(text) ==>
        claims.availabilityChecked && offer.availability.Some? && offer.availability.value.slots != []
    }

    /** A promise to look at the diary: nudged when nothing looked, replaced when looking found nothing. */
    method ApplyPromisedCheckGuard(i: nat, content: string) returns (v: Verdict)
      requires Ready()
      modifies this`messages, this`attempted, this`nudges, this`addressCorrectionOnly
      ensures Ready()
      ensures if PromiseKept(content) then v == Content(content)
        else if !claims.availabilityChecked && old(MayNudge(PromiseNudge, i)) then v.Retry?
        else var f := if claims.availabilityChecked then PromiseReplacement(offer) else PromisedCheck;
             v == Done(Response(words.fallback(f), false, None, claims.escalationRequested)) && Due(f, i, false)
      ensures if v.Retry? then nudges == old(nudges) + [PromiseNudge]
        else messages == old(messages) && attempted == old(attempted) && nudges == old(nudges)
    {
      hide Ready;
      if !setup.availabilityGuard || claims.bookingToolSucceeded { return Content(content); }
      if !words.promisesCheck(content) { return Content(content); }
      if !claims.availabilityChecked {
        if MayNudge(PromiseNudge, i) {
          AskAgain(PromiseNudge, content);
          return Retry;
        }
        return Done(Response(words.fallback(PromisedCheck), false, None, claims.escalationRequested));
      }
      if offer.availability.Some? && offer.availability.value.slots != [] { return Content(content); }
      return Done(Response(words.fallback(PromiseReplacement(offer)), false, None, claims.escalationRequested));
    }

    // -------------------------------------------------------------- the turn

    /** The reply says no more about the address, the booking and the request than the run recorded. */
    ghost predicate ClaimsHeld(text: string)
      reads this`claims, this`address
    {
      AddressHeld(text) && BookingHeld(text) && RequestHeld(text)
    }

    /** Every guard has let this reply through, as the state stands. */
    ghost predicate Guarded(i: nat, text: string)
      reads this`claims, this`address, this`offer, this`attempted, this`messages
    {
      ClaimsHeld(text) && PromiseKept(text) && YesSettled(i) && DateSettled(i, text)
    }

    /** The two guards that only ask again have asked, or had nothing to ask, in the iteration that answered. */
    ghost predicate Heeded(text: string)
      reads this
    {
      && |stacks| > 0 && YesHeeded(world, setup, |stacks| - 1, messages, done, nudges)
      && DateHeeded(world, words, setup, |stacks| - 1, text, done, nudges)
    }

    /** The time guard has nothing against it either, given whether chips are on screen. */
    predicate TimesHeld(text: string, chips: bool)
      reads this`offer
    {
      ReplyTimes.SafeReply(words.times(text), offer.availability, words.customer, chips) == ReplyTimes.AsWritten
    }

    /** The reply is a fixed one, and true. */
    ghost predicate Fixed(i: nat, r: Result)
      requires r.Response?
      reads this`claims, this`address, this`offer, this`attempted
    {
      exists f :: r.content == words.fallback(f) && Due(f, i, r.chips)
    }

    /** The same, read off the executions. */
    ghost predicate IsTrueFallback(r: Result)
      requires r.Response? && |stacks| > 0
      reads this
    {
      exists f :: r.content == words.fallback(f)
        && Warranted(setup, f, r.chips, |stacks| - 1, RecordOf(setup, done), AddressOf(words, done), Offered(done),
                     attempted)
    }

    function ContextNow(): Context
      reads this`claims
    {
      Context(claims.bookingRecorded, claims.requestRecorded, claims.bookingToolSucceeded && !claims.bookingRecorded)
    }

    /** What every reply owes: the handoff, a text that is fixed or guarded, and a true context. */
    ghost predicate Owed(i: nat, r: Result)
      reads this`claims, this`address, this`offer, this`attempted, this`messages
    {
      && r.Response? && r.handoff == claims.escalationRequested
      && (Fixed(i, r) || (Guarded(i, r.content) && TimesHeld(r.content, r.chips) && r.context.Some?))
      && (r.context.Some? ==> r.context.value == ContextNow())
    }

    /** The reply that ships, after the invented-time guard. */
    function Shipped(content: string, chips: bool): string
      reads this`offer
    {
      match ReplyTimes.SafeReply(words.times(content), offer.availability, words.customer, chips)
      case AsWritten => content
      case NoSlotsOnScreen => words.fallback(Fallback.NoSlotsOnScreen)
      case UnbookableTime => words.fallback(Fallback.UnbookableTime)
      case AvailabilityFallback => words.fallback(AvailabilitySafe)
    }

    method BuildFinalResult(i: nat, content: string) returns (r: Result)
      requires AddressFixed(i, content) || Guarded(i, content)
      ensures Owed(i, r)
      ensures r == Response(Shipped(content, world.onScreen(i)), world.onScreen(i), Some(ContextNow()),
                            claims.escalationRequested)
    {
      var onScreen := world.onScreen(i);
      var shipped := ReplyTimes.SafeReply(words.times(content), offer.availability, words.customer, onScreen);
      var context :=
        Context(claims.bookingRecorded, claims.requestRecorded, claims.bookingToolSucceeded && !claims.bookingRecorded);
      var text := match shipped
        case AsWritten => content
        case NoSlotsOnScreen => words.fallback(Fallback.NoSlotsOnScreen)
        case UnbookableTime => words.fallback(Fallback.UnbookableTime)
        case AvailabilityFallback => words.fallback(AvailabilitySafe);
      ShippedIsDue(i, content, onScreen);
      return Response(text, onScreen, Some(context), claims.escalationRequested);
    }

    /** What the time guard ships is the reply it was given, or a fixed one that is due. */
    lemma ShippedIsDue(i: nat, content: string, chips: bool)
      requires AddressFixed(i, content) || Guarded(i, content)
      ensures var text := Shipped(content, chips);
        || (text == content && Guarded(i, text) && TimesHeld(text, chips))
        || exists f :: text == words.fallback(f) && Due(f, i, chips)
    {
      ReplacedBeside(words.times(content), offer, words.customer, chips);
      hide ReplyTimes.SafeReply, TimesDelivered;
      match ReplyTimes.SafeReply(words.times(content), offer.availability, words.customer, chips)
      case AsWritten =>
        if !Guarded(i, content) {
          if content == words.fallback(AddressConflict) && Due(AddressConflict, i, false) {
            assert Due(AddressConflict, i, chips);
          } else {
            assert Due(AddressSafe(address.fact.value), i, chips);
          }
        }
      case NoSlotsOnScreen => assert Due(Fallback.NoSlotsOnScreen, i, chips);
      case UnbookableTime => assert Due(Fallback.UnbookableTime, i, chips);
      case AvailabilityFallback => assert Due(AvailabilitySafe, i, chips);
    }

    lemma FallbackIsOwed(i: nat, f: Fallback)
      requires Due(f, i, false)
      ensures Owed(i, Response(words.fallback(f), false, None, claims.escalationRequested))
    {
      var r := Response(words.fallback(f), false, None, claims.escalationRequested);
      assert r.content == words.fallback(f) && Due(f, i, r.chips);
    }

    /** The three guards that hold a reply against the record. */
    method JudgeClaims(i: nat, content: string) returns (v: Verdict)
      requires Ready()
      modifies this`messages, this`attempted, this`nudges, this`addressCorrectionOnly
      ensures Ready() && (v.Content? ==> AddressFixed(i, v.text) || ClaimsHeld(v.text))
      ensures ClaimsHeld(content) ==> v == Content(content)
      ensures v.Done? ==> Owed(i, v.result)
      ensures if v.Retry? then |nudges| == |old(nudges)| + 1
        else messages == old(messages) && attempted == old(attempted) && nudges == old(nudges)
    {
      hide Ready, Due, Owed;
      v := ApplyAddressGuard(i, content);
      if v.Retry? { return; }
      var text := v.text;
      v := ApplyBookingClaimGuard(i, text);
      if v.Done? { FallbackIsOwed(i, BookingSafe); }
      if !v.Content? { return; }
      v := ApplyRequestClaimGuard(i, text);
      if v.Done? { FallbackIsOwed(i, RequestSafe); }
    }

    /** No guard, the time guard included, has anything against the reply. */
    ghost predicate Clean(i: nat, text: string)
      reads this`claims, this`address, this`offer, this`attempted, this`messages
    {
      Guarded(i, text) && TimesHeld(text, world.onScreen(i))
    }

    /** The reply as it was written. */
    function AsSaid(i: nat, text: string): Result
      reads this`claims
    {
      Response(text, world.onScreen(i), Some(ContextNow()), claims.escalationRequested)
    }

    /** The reply guards, in the order they run: a clean reply ships as it was written. */
    method FinalizeIteration(i: nat, content: string) returns (v: Verdict)
      requires Ready()
      modifies this`messages, this`executions, this`attempted, this`nudges, this`asked, this`tried, this`done,
               this`toolsCalled, this`sideEffectsInvoked, this`claims, this`address, this`offer,
                 this`addressCorrectionOnly
      ensures Ready() && old(asked) <= asked && !v.Content? && (v.Done? ==> Owed(i, v.result))
      ensures v.Retry? ==> |nudges| == |old(nudges)| + 1
      ensures v.Done? ==>
        Unmoved(old(messages), old(attempted), old(nudges), old(asked), old(claims), old(address), old(offer))
      ensures old(Clean(i, content)) ==> v == Done(old(AsSaid(i, content)))
    {
      hide Ready, Due, Owed, AddressFixed, ContextNow, ClaimsHeld, YesSettled, DateSettled, PromiseKept;
      v := JudgeClaims(i, content);
      if !v.Content? { return; }
      var text := v.text;
      var again := AskForAction(i, text);
      if again { return Retry; }
      v := ShipReply(i, text);
    }

    /** The two guards that only ever ask for one more iteration. */
    method AskForAction(i: nat, content: string) returns (again: bool)
      requires Ready()
      modifies this`messages, this`executions, this`attempted, this`nudges, this`asked, this`tried, this`done,
               this`toolsCalled, this`sideEffectsInvoked, this`claims, this`address, this`offer,
                 this`addressCorrectionOnly
      ensures Ready() && old(asked) <= asked && again == !old(YesSettled(i) && DateSettled(i, content))
      ensures if again then |nudges| == |old(nudges)| + 1
        else Unmoved(old(messages), old(attempted), old(nudges), old(asked), old(claims), old(address), old(offer))
    {
      hide Ready, YesSettled, DateSettled;
      again := ApplyPendingYesGuard(i, content);
      if again { return; }
      again := ApplyAvailabilityClaimGuard(i, content);
    }

    method ShipReply(i: nat, content: string) returns (v: Verdict)
      requires Ready() && (AddressFixed(i, content) || ClaimsHeld(content)) && YesSettled(i) && DateSettled(i, content)
      modifies this`messages, this`attempted, this`nudges, this`addressCorrectionOnly
      ensures Ready() && !v.Content? && (v.Done? ==> Owed(i, v.result))
      ensures if v.Retry? then |nudges| == |old(nudges)| + 1
        else messages == old(messages) && attempted == old(attempted) && nudges == old(nudges)
      ensures old(Clean(i, content)) ==> v == Done(old(AsSaid(i, content)))
    {
      hide Ready, Due, Owed, AddressFixed, ClaimsHeld, YesSettled, DateSettled, PromiseKept, ContextNow;
      v := ApplyPromisedCheckGuard(i, content);
      if v.Done? {
        FallbackIsOwed(i, if claims.availabilityChecked then PromiseReplacement(offer) else PromisedCheck);
      }
      if !v.Content? { return; }
      var result := BuildFinalResult(i, content);
      return Done(result);
    }

    /** What the provider answers now, were the budget left. */
    ghost function ReplyNow(i: nat): LlmReply
      reads this`messages, this`addressCorrectionOnly
    {
      world.llm(i, messages, !addressCorrectionOnly && setup.tools != map[])
    }

    /** Budget, provider call, then tools or the reply. */
    method RunIteration(i: nat) returns (v: Verdict)
      requires Ready() && |stacks| == i
      modifies this`messages, this`executions, this`attempted, this`nudges, this`asked, this`tried, this`done,
               this`toolsCalled, this`sideEffectsInvoked, this`claims, this`address, this`offer,
                 this`addressCorrectionOnly,
               this`stacks, this`withheld
      ensures Ready() && old(asked) <= asked && !v.Content?
      ensures var budget, reply := world.budget(i), old(ReplyNow(i));
        if budget.BudgetThrew? then v == Done(Failed(budget.infra, old(claims.escalationRequested)))
        else if budget.Exhausted? then v == Done(BudgetExceeded(old(claims.escalationRequested)))
        else if reply.LlmThrew? then v == Done(Failed(reply.infra, old(claims.escalationRequested)))
        else if IsToolTurn(reply, old(addressCorrectionOnly))
        then v.Retry? && asked == old(asked) + reply.calls && nudges == old(nudges)
             && old(messages) + [Assistant(reply.text, reply.calls)] <= messages
             && |messages| == |old(messages)| + 1 + |reply.calls|
        else
          && (if v.Done? then v.result.Response? && Owed(i, v.result) && nudges == old(nudges) && asked == old(asked)
              else |nudges| == |old(nudges)| + 1)
          && (old(Clean(i, reply.text)) ==> v == Done(old(AsSaid(i, reply.text))))
      ensures v.Done? ==> v.result.handoff == claims.escalationRequested
      ensures v.Done? && !v.result.Response? ==> claims == old(claims)
      ensures if world.budget(i).Left?
        then stacks == old(stacks) + [old(messages)] && withheld == old(withheld) + [old(addressCorrectionOnly)]
        else stacks == old(stacks) && withheld == old(withheld) && nudges == old(nudges) && asked == old(asked)
    {
      hide Recorded, Told, Paired, Clean, AsSaid, Fixed, Guarded, TimesHeld;
      var budget := world.budget(i);
      if budget.BudgetThrew? { return Done(Failed(budget.infra, claims.escalationRequested)); }
      if budget.Exhausted? { return Done(BudgetExceeded(claims.escalationRequested)); }
      stacks, withheld := stacks + [messages], withheld + [addressCorrectionOnly];
      var reply := world.llm(i, messages, !addressCorrectionOnly && setup.tools != map[]);
      match reply {
        case LlmThrew(infra) =>
          return Done(Failed(infra, claims.escalationRequested));
        case Reply(text, stop, calls) =>
          if stop || calls == [] || addressCorrectionOnly {
            v := FinalizeIteration(i, text);
            return;
          }
          ProcessToolCalls(text, calls);
          return Retry;
      }
    }

    /** Every iteration so far was a tool turn or a retry, and each tool turn's calls were asked for. */
    ghost predicate Spent()
      reads this`stacks, this`withheld, this`asked, this`nudges
    {
      && |withheld| == |stacks| && AllAsked(world, setup.tools, stacks, withheld, asked)
      && ToolTurns(world, setup.tools, stacks, withheld) + |nudges| == |stacks|
    }

    /** Each way to end has its cause: a budget, an exception, a reply that was no tool turn, or ten turns spent. */
    ghost predicate EndsFor(r: Result, prepareThrew: Option<bool>)
      reads this`stacks, this`withheld, this`asked, this`nudges
    {
      && |withheld| == |stacks| <= MAX_ITERATIONS
      && AllAsked(world, setup.tools, stacks, withheld, asked)
      && match r
         case BudgetExceeded(_) => Spent() && |stacks| < MAX_ITERATIONS && world.budget(|stacks|).Exhausted?
         case MaxIterations(_) => Spent() && |stacks| == MAX_ITERATIONS
         case Failed(infra, _) =>
           || prepareThrew == Some(infra)
           || (|stacks| < MAX_ITERATIONS && world.budget(|stacks|) == BudgetThrew(infra))
           || (|stacks| > 0 && ReplyAt(world, setup.tools, stacks, withheld, |stacks| - 1) == LlmThrew(infra))
         case Response(_, _, _, _) =>
           && |stacks| > 0 && ReplyAt(world, setup.tools, stacks, withheld, |stacks| - 1).Reply?
           && !IsToolTurn(ReplyAt(world, setup.tools, stacks, withheld, |stacks| - 1), withheld[|stacks| - 1])
    }

    /** One run: at most ten iterations, and an exception lands on the error exit with what was already promised. */
    method Run(prepareThrew: Option<bool>) returns (r: Result)
      requires Ready() && asked == [] && stacks == [] && withheld == [] && nudges == []
      modifies this`messages, this`executions, this`attempted, this`nudges, this`asked, this`tried, this`done,
               this`toolsCalled, this`sideEffectsInvoked, this`claims, this`address, this`offer,
                 this`addressCorrectionOnly,
               this`stacks, this`withheld
      // every provider call sees a well-formed stack, ten times at most, and no guard retries twice
      ensures |stacks| <= MAX_ITERATIONS && (forall k :: 0 <= k < |stacks| ==> Paired(stacks[k]))
      ensures Orderly() && forall j, k :: 0 <= j < k < |nudges| ==> nudges[j] != nudges[k]
      // every call of every tool turn was executed, and answered with what came back, unless something stood against it
      ensures EndsFor(r, prepareThrew) && Told() && done == CameBack(world, tried)
      // no side effect happens twice, no tool before what it needs
      ensures AtMostOnce(done, setup.tools) && PreconditionsMet(done, setup.tools)
      // an escalation that succeeded survives every exit, and nothing else hands off
      ensures r.handoff == (setup.botOwned && Escalated(done))
      // a reply is a fixed one that is true of the run, or claims no more than the run did, names no time that was not
      // offered, and leaves no yes unheeded and no day declared shut unlooked, but where the guards had no retry left
      ensures r.Response? ==>
        |stacks| > 0
        && (IsTrueFallback(r)
            || (Honest(words, setup, r.content, done) && TimesHeld(r.content, r.chips) && Heeded(r.content)))
      // what the result tells its caller about the record is true
      ensures r.Response? && r.context.Some? ==>
        r.context.value
          == Context(Booked(done), setup.requestOnRecord || Requested(done), ActedOnDiary(done) && !Booked(done))
    {
      hide Owed, Recorded, Told, Spent, EndsFor, Honest, IsTrueFallback, Heeded;
      NothingSpent();
      if prepareThrew.Some? {
        var failed := Failed(prepareThrew.value, claims.escalationRequested);
        FailsFor(prepareThrew.value);
        Account(failed);
        return failed;
      }
      for i := 0 to MAX_ITERATIONS
        invariant Ready() && |stacks| == i && Spent()
      {
        var v := RunTurn(i, prepareThrew);
        if v.Done? {
          Account(v.result);
          return v.result;
        }
      }
      AllSpent();
      Account(MaxIterations(claims.escalationRequested));
      return MaxIterations(claims.escalationRequested);
    }

    lemma NothingSpent()
      requires asked == [] && stacks == [] && withheld == [] && nudges == []
      ensures Spent()
    {
      NothingAsked(world, setup.tools);
    }

    lemma FailsFor(infra: bool)
      requires Spent() && |stacks| <= MAX_ITERATIONS
      ensures EndsFor(Failed(infra, claims.escalationRequested), Some(infra))
    {
    }

    lemma AllSpent()
      requires Spent() && |stacks| == MAX_ITERATIONS
      ensures EndsFor(MaxIterations(claims.escalationRequested), None)
    {
    }

    /** One iteration, in the account of the whole run. */
    method RunTurn(i: nat, ghost prepareThrew: Option<bool>) returns (v: Verdict)
      requires Ready() && |stacks| == i < MAX_ITERATIONS && Spent()
      modifies this`messages, this`executions, this`attempted, this`nudges, this`asked, this`tried, this`done,
               this`toolsCalled, this`sideEffectsInvoked, this`claims, this`address, this`offer,
               this`addressCorrectionOnly, this`stacks, this`withheld
      ensures Ready() && !v.Content? && |stacks| <= i + 1
      ensures v.Retry? ==> |stacks| == i + 1 && Spent()
      ensures v.Done? ==> v.result.handoff == claims.escalationRequested && EndsFor(v.result, prepareThrew)
      ensures v.Done? && v.result.Response? ==> |stacks| > 0 && Owed(|stacks| - 1, v.result)
    {
      hide Ready, Owed, AllAsked, ToolTurns, Clean, AsSaid;
      ghost var before, was, called := stacks, withheld, asked;
      ghost var stack, correction := messages, addressCorrectionOnly;
      v := RunIteration(i);
      if world.budget(i).Left? {
        OneMoreTurn(world, setup.tools, before, was, called, stack, correction, asked[|called|..]);
        assert called + asked[|called|..] == asked;
      }
    }

    /** What the state owes a result is what the executions owe it. */
    lemma Account(r: Result)
      requires Ready() && r.handoff == claims.escalationRequested
      requires r.Response? ==> |stacks| > 0 && Owed(|stacks| - 1, r)
      ensures done == CameBack(world, tried) && AtMostOnce(done, setup.tools) && PreconditionsMet(done, setup.tools)
      ensures r.handoff == (setup.botOwned && Escalated(done))
      ensures r.Response? ==>
        |stacks| > 0
        && (IsTrueFallback(r)
            || (Honest(words, setup, r.content, done) && TimesHeld(r.content, r.chips) && Heeded(r.content)))
      ensures r.Response? && r.context.Some? ==>
        r.context.value
          == Context(Booked(done), setup.requestOnRecord || Requested(done), ActedOnDiary(done) && !Booked(done))
    {
      DisciplineHolds(done, setup.tools);
      ClaimsAreTrue(setup, done);
      if r.Response? {
        if Fixed(|stacks| - 1, r) {
          FixedIsTrue(r);
        } else {
          GuardedIsHonest(r.content);
        }
      }
      hide AtMostOnce, PreconditionsMet, Disciplined, Paired, Fixed, Guarded, TimesHeld, Honest, Heeded, IsTrueFallback,
        Orderly, Correcting, Told, Called, Signatures, AddressOf, Offered;
    }

    lemma FixedIsTrue(r: Result)
      requires Recorded() && |stacks| > 0 && r.Response? && Fixed(|stacks| - 1, r)
      ensures IsTrueFallback(r)
    {
      ClaimsAreTrue(setup, done);
      var f :| r.content == words.fallback(f) && Due(f, |stacks| - 1, r.chips);
      assert Warranted(setup, f, r.chips, |stacks| - 1, RecordOf(setup, done), AddressOf(words, done), Offered(done),
                       attempted);
    }

    lemma GuardedIsHonest(text: string)
      requires Recorded() && Orderly() && |stacks| > 0 && Guarded(|stacks| - 1, text)
      ensures Honest(words, setup, text, done) && Heeded(text)
    {
      ClaimsAreTrue(setup, done);
    }
  }
}
