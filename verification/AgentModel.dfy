/**
 What a run of the agent says and records: messages, tools, results and the predicates a run keeps. The
 model, the tools, the budget, the gates and the text classifiers are functions the run is given; a run
 is judged for every choice of them.
 */
module AgentModel {
  import opened Wrappers
  import ReplyTimes

  type Id = string

  datatype ToolName =
    | CreateBooking | RequestAppointment | RescheduleBooking | CancelBooking | UpdateBooking
    | CaptureLead | EscalateToHuman | CheckAvailability | OtherTool(name: string)

  datatype ToolCall = ToolCall(id: Id, tool: ToolName, args: string)
  datatype ToolSpec = ToolSpec(needs: set<ToolName>, sideEffects: bool)
  type Tools = map<ToolName, ToolSpec>

  predicate IsMutation(t: ToolName) {
    t.CreateBooking? || t.RequestAppointment? || t.RescheduleBooking? || t.CancelBooking? || t.UpdateBooking?
  }

  datatype Payload =
    | UnknownTool | MissingPrecondition | AlreadyPerformed | ResultPayload(result: ToolResult) | Unavailable
  datatype Message =
    | System
    | User(text: string)
    | Assistant(text: string, calls: seq<ToolCall>)
    | ToolMessage(callId: Id, payload: Payload)

  datatype Offer = NoOffer | Malformed | Slots(av: ReplyTimes.Availability)
  /** What an address was used for; it decides what a sentence stating it claims. */
  datatype Use = ForAvailability | ForBooking | ForRequest
  datatype Fact = Fact(address: string, use: Use, alternatives: set<string>)

  /** The parts of a tool's result the run reads. */
  datatype ToolResult = ToolResult(
    success: bool, requested: bool, captured: bool, fact: Option<Fact>, offer: Offer, confirmExisting: bool)

  /** A tool throws, or returns; serialising what it returned may throw in turn. */
  datatype ToolOutcome = ToolThrew | Returned(result: ToolResult, payloadThrows: bool)

  datatype LlmReply = LlmThrew(infra: bool) | Reply(text: string, stop: bool, calls: seq<ToolCall>)
  datatype Budget = Left | Exhausted | BudgetThrew(infra: bool)

  /** The fixed replies, and the retries a guard may ask for. */
  datatype Fallback =
    | AddressConflict | AddressSafe(fact: Fact) | BookingSafe | RequestSafe
    | AlreadyHeld | NoConfirmableTimes | CheckFailed | PromisedCheck
    | NoSlotsOnScreen | UnbookableTime | AvailabilitySafe
  datatype Nudge =
    | AddressNudge | BookingNudge | RequestNudge | PendingYesNudge | AvailabilityNudge | ForcedCheck | PromiseNudge

  /** Everything outside the run, as functions of the step it is asked at. */
  datatype World = World(
    llm: (nat, seq<Message>, bool) -> LlmReply,
    tool: (nat, ToolCall) -> ToolOutcome,
    budget: nat -> Budget,
    pendingYes: (nat, seq<Message>) -> bool,
    checkedBefore: nat -> bool,
    namedDate: string -> Option<string>,
    onScreen: nat -> bool,
    forcedId: Id)

  datatype Words = Words(
    claimsBooked: string -> bool,
    claimsBookingRequest: string -> bool,
    claimsRequestSent: string -> bool,
    claimsForwarded: string -> bool,
    claimsDatedUnavailability: string -> bool,
    offersManualRequest: string -> bool,
    promisesCheck: string -> bool,
    claimsAddress: (string, string) -> bool,
    times: string -> ReplyTimes.Text,
    customer: ReplyTimes.Text,
    fallback: Fallback -> string,
    nudge: Nudge -> string)

  /** What `prepareRun` settles once. */
  datatype Setup = Setup(
    opening: seq<Message>, tools: Tools, botOwned: bool, requestOnRecord: bool,
    bookingGuard: bool, requestGuard: bool, availabilityGuard: bool, requestOfferGuard: bool)

  datatype Context = Context(bookingRecorded: bool, requestRecorded: bool, bookingRequestRecorded: bool)
  datatype Result =
    | Response(content: string, chips: bool, context: Option<Context>, handoff: bool)
    | MaxIterations(handoff: bool)
    | BudgetExceeded(handoff: bool)
    | Failed(infra: bool, handoff: bool)

  const MAX_ITERATIONS := 10

  // ---------------------------------------------------------------- the message stack

  predicate AreAnswers(messages: seq<Message>, calls: seq<ToolCall>) {
    |messages| == |calls| && forall i :: 0 <= i < |calls| ==>
      messages[i].ToolMessage? && messages[i].callId == calls[i].id
  }

  /**
   Each assistant message with tool calls is followed by exactly their answers, in order; no other answer stands
   anywhere.
   */
  predicate Paired(messages: seq<Message>) {
    messages == [] ||
    (!messages[0].ToolMessage? &&
     var k := if messages[0].Assistant? then |messages[0].calls| else 0;
     k + 1 <= |messages| && (k > 0 ==> AreAnswers(messages[1..k + 1], messages[0].calls)) && Paired(messages[k + 1..]))
  }

  lemma {:induction false} PairedAppends(a: seq<Message>, b: seq<Message>)
    requires Paired(a) && Paired(b)
    ensures Paired(a + b)
  {
    if a == [] {
      assert a + b == b;
    } else {
      var k := if a[0].Assistant? then |a[0].calls| else 0;
      PairedAppends(a[k + 1..], b);
      TurnPrepends(a, b, k);
    }
  }

  lemma TurnPrepends(a: seq<Message>, b: seq<Message>, k: nat)
    requires a != [] && !a[0].ToolMessage? && k == (if a[0].Assistant? then |a[0].calls| else 0) && k + 1 <= |a|
    requires k > 0 ==> AreAnswers(a[1..k + 1], a[0].calls)
    requires Paired(a[k + 1..] + b)
    ensures Paired(a + b)
  {
    assert (a + b)[0] == a[0] && (a + b)[1..k + 1] == a[1..k + 1];
    assert (a + b)[k + 1..] == a[k + 1..] + b;
  }

  lemma PlainPair(a: seq<Message>, said: string, note: string)
    requires Paired(a)
    ensures Paired(a + [Assistant(said, []), User(note)])
  {
    var pair := [Assistant(said, []), User(note)];
    assert pair[1..] == [User(note)] && [User(note)][1..] == [];
    assert Paired([User(note)]);
    PairedAppends(a, pair);
  }

  lemma Noted(a: seq<Message>, note: string)
    requires Paired(a)
    ensures Paired(a + [User(note)])
  {
    assert [User(note)][1..] == [];
    PairedAppends(a, [User(note)]);
  }

  lemma AnsweredTurn(a: seq<Message>, said: string, calls: seq<ToolCall>, answers: seq<Message>)
    requires Paired(a) && AreAnswers(answers, calls)
    ensures Paired(a + [Assistant(said, calls)] + answers)
  {
    var turn := [Assistant(said, calls)] + answers;
    assert turn[1..|calls| + 1] == answers && turn[|calls| + 1..] == [];
    PairedAppends(a, turn);
    assert a + [Assistant(said, calls)] + answers == a + turn;
  }

  // ---------------------------------------------------------------- what was executed

  /** One tool execution of the run that returned, with what it returned. */
  datatype Execution = Execution(tool: ToolName, args: string, result: ToolResult)

  /** The executions that returned, of the calls `tried`; a tool that throws leaves none. */
  function CameBack(world: World, tried: seq<ToolCall>): seq<Execution> {
    if tried == [] then []
    else
      var n, c := |tried| - 1, tried[|tried| - 1];
      match world.tool(n, c)
      case ToolThrew => CameBack(world, tried[..n])
      case Returned(r, _) => CameBack(world, tried[..n]) + [Execution(c.tool, c.args, r)]
  }

  predicate SomeReturned(world: World, tried: seq<ToolCall>, t: ToolName) {
    exists i :: 0 <= i < |tried| && tried[i].tool == t && world.tool(i, tried[i]).Returned?
  }

  lemma ReturnedGrows(world: World, tried: seq<ToolCall>, c: ToolCall, t: ToolName)
    ensures SomeReturned(world, tried + [c], t)
      <==> SomeReturned(world, tried, t) || (c.tool == t && world.tool(|tried|, c).Returned?)
  {
    var more := tried + [c];
    assert more[|tried|] == c && forall i :: 0 <= i < |tried| ==> more[i] == tried[i];
  }

  /** A tool counts as having run exactly when one of its calls came back, with whatever result. */
  lemma {:induction false} RanIfReturned(world: World, tried: seq<ToolCall>, t: ToolName)
    ensures Ran(CameBack(world, tried), t) <==> SomeReturned(world, tried, t)
  {
    if tried != [] {
      var n, c := |tried| - 1, tried[|tried| - 1];
      RanIfReturned(world, tried[..n], t);
      ReturnedGrows(world, tried[..n], c, t);
      assert tried == tried[..n] + [c];
      if world.tool(n, c).Returned? {
        OneMore(CameBack(world, tried[..n]), Execution(c.tool, c.args, world.tool(n, c).result));
      }
    }
  }

  predicate IsRequest(e: Execution) {
    e.tool.RequestAppointment? || e.result.requested
  }

  /** A confirmed booking was written. */
  predicate Booked(done: seq<Execution>) {
    exists i :: 0 <= i < |done| && IsMutation(done[i].tool) && done[i].result.success && !IsRequest(done[i])
  }

  predicate ActedOnDiary(done: seq<Execution>) {
    exists i :: 0 <= i < |done| && IsMutation(done[i].tool) && done[i].result.success
  }

  predicate RecordsRequest(e: Execution) {
    e.result.success && (
      || (e.tool.CaptureLead? && e.result.captured)
      || e.tool.EscalateToHuman?
      || (IsMutation(e.tool) && IsRequest(e)))
  }

  predicate Requested(done: seq<Execution>) {
    exists i :: 0 <= i < |done| && RecordsRequest(done[i])
  }

  predicate Escalated(done: seq<Execution>) {
    exists i :: 0 <= i < |done| && done[i].tool.EscalateToHuman? && done[i].result.success
  }

  predicate SideEffect(e: Execution, tools: Tools) {
    e.tool in tools && tools[e.tool].sideEffects && e.result.success
  }

  /** No side-effecting call succeeded twice with the same arguments. */
  predicate AtMostOnce(done: seq<Execution>, tools: Tools) {
    forall i, j :: 0 <= i < j < |done| && SideEffect(done[i], tools) && SideEffect(done[j], tools) ==>
      !(done[i].tool == done[j].tool && done[i].args == done[j].args)
  }

  predicate Ran(done: seq<Execution>, t: ToolName) {
    exists i :: 0 <= i < |done| && done[i].tool == t
  }

  /** Every precondition was met: each tool a tool needs had returned before it ran. */
  predicate PreconditionsMet(done: seq<Execution>, tools: Tools) {
    forall i :: 0 <= i < |done| ==> done[i].tool in tools && forall t :: t in tools[done[i].tool].needs ==>
      Ran(done[..i], t)
  }

  function Signatures(done: seq<Execution>, tools: Tools): set<(ToolName, string)> {
    if done == [] then {}
    else
      var e := done[|done| - 1];
      var before := Signatures(done[..|done| - 1], tools);
      if SideEffect(e, tools) then before + {(e.tool, e.args)} else before
  }

  /** What one more execution adds to each record. */
  lemma OneMore(done: seq<Execution>, e: Execution)
    ensures var more := done + [e];
      && (Booked(more) <==> Booked(done) || (IsMutation(e.tool) && e.result.success && !IsRequest(e)))
      && (ActedOnDiary(more) <==> ActedOnDiary(done) || (IsMutation(e.tool) && e.result.success))
      && (Requested(more) <==> Requested(done) || RecordsRequest(e))
      && (Escalated(more) <==> Escalated(done) || (e.tool.EscalateToHuman? && e.result.success))
      && (forall t :: Ran(more, t) <==> Ran(done, t) || e.tool == t)
  {
    var more := done + [e];
    assert more[|done|] == e && forall i :: 0 <= i < |done| ==> more[i] == done[i];
  }

  lemma {:induction false} SignaturesAreTheSucceeded(done: seq<Execution>, tools: Tools)
    ensures forall t, a :: (t, a) in Signatures(done, tools) <==>
      exists i :: 0 <= i < |done| && SideEffect(done[i], tools) && done[i].tool == t && done[i].args == a
  {
    if done != [] {
      var n := |done| - 1;
      SignaturesAreTheSucceeded(done[..n], tools);
      forall t, a ensures (t, a) in Signatures(done, tools) <==>
        exists i :: 0 <= i < |done| && SideEffect(done[i], tools) && done[i].tool == t && done[i].args == a
      {
        if (t, a) in Signatures(done[..n], tools) {
          var i :| 0 <= i < n && SideEffect(done[..n][i], tools) && done[..n][i].tool == t && done[..n][i].args == a;
          assert done[i] == done[..n][i];
        }
        if i :| 0 <= i < |done| && SideEffect(done[i], tools) && done[i].tool == t && done[i].args == a {
          if i < n { assert done[..n][i] == done[i]; }
        }
      }
    }
  }

  function Called(done: seq<Execution>): set<ToolName> {
    if done == [] then {} else Called(done[..|done| - 1]) + {done[|done| - 1].tool}
  }

  /** Each execution found its tool on the list, its needs already called, and itself not already performed. */
  predicate Disciplined(done: seq<Execution>, tools: Tools) {
    done != [] ==>
      var before, e := done[..|done| - 1], done[|done| - 1];
      && Disciplined(before, tools) && e.tool in tools && tools[e.tool].needs <= Called(before)
      && (tools[e.tool].sideEffects ==> (e.tool, e.args) !in Signatures(before, tools))
  }

  lemma {:induction false} CalledAreTheRan(done: seq<Execution>)
    ensures forall t :: t in Called(done) <==> Ran(done, t)
  {
    if done != [] {
      var n := |done| - 1;
      CalledAreTheRan(done[..n]);
      OneMore(done[..n], done[n]);
      assert done == done[..n] + [done[n]];
    }
  }

  /** A disciplined run performs no side effect twice and runs no tool before what it needs. */
  lemma {:induction false} DisciplineHolds(done: seq<Execution>, tools: Tools)
    requires Disciplined(done, tools)
    ensures AtMostOnce(done, tools) && PreconditionsMet(done, tools)
  {
    if done != [] {
      var n := |done| - 1;
      DisciplineHolds(done[..n], tools);
      SignaturesAreTheSucceeded(done[..n], tools);
      CalledAreTheRan(done[..n]);
      LaterMeets(done, n, tools);
      forall i | 0 <= i < n && SideEffect(done[i], tools) && SideEffect(done[n], tools)
        ensures !(done[i].tool == done[n].tool && done[i].args == done[n].args)
      {
        assert done[..n][i] == done[i];
      }
      EarlierStayOnce(done, n, tools);
    }
  }

  lemma EarlierStayOnce(done: seq<Execution>, n: nat, tools: Tools)
    requires |done| == n + 1 && AtMostOnce(done[..n], tools)
    requires forall i :: 0 <= i < n && SideEffect(done[i], tools) && SideEffect(done[n], tools) ==>
      !(done[i].tool == done[n].tool && done[i].args == done[n].args)
    ensures AtMostOnce(done, tools)
  {
    forall i, j | 0 <= i < j < |done| && SideEffect(done[i], tools) && SideEffect(done[j], tools)
      ensures !(done[i].tool == done[j].tool && done[i].args == done[j].args)
    {
      if j < n {
        assert done[..n][i] == done[i] && done[..n][j] == done[j];
      }
    }
  }

  lemma LaterMeets(done: seq<Execution>, n: nat, tools: Tools)
    requires |done| == n + 1 && PreconditionsMet(done[..n], tools)
    requires done[n].tool in tools && forall t :: t in tools[done[n].tool].needs ==> Ran(done[..n], t)
    ensures PreconditionsMet(done, tools)
  {
    forall i | 0 <= i < |done| ensures done[i].tool in tools && forall t :: t in tools[done[i].tool].needs ==>
      Ran(done[..i], t) {
      if i < n {
        assert done[..n][i] == done[i] && done[..n][..i] == done[..i];
      }
    }
  }

  // ---------------------------------------------------------------- what becomes of each call

  predicate AlreadyDone(done: seq<Execution>, tools: Tools, c: ToolCall) {
    && c.tool in tools && tools[c.tool].sideEffects
    && exists i :: 0 <= i < |done| && done[i].result.success && done[i].tool == c.tool && done[i].args == c.args
  }

  predicate NeedsMet(done: seq<Execution>, tools: Tools, c: ToolCall)
    requires c.tool in tools
  {
    forall t :: t in tools[c.tool].needs ==> Ran(done, t)
  }

  /**
   Nothing stands against the call: its tool is there, what it needs has run, and it is no side effect already
   performed.
   */
  predicate Permitted(done: seq<Execution>, tools: Tools, c: ToolCall) {
    c.tool in tools && NeedsMet(done, tools, c) && !AlreadyDone(done, tools, c)
  }

  /** What the model is told about one call. */
  function AnswerTo(world: World, tools: Tools, tried: seq<ToolCall>, c: ToolCall): Payload {
    var done := CameBack(world, tried);
    if c.tool !in tools then UnknownTool
    else if !NeedsMet(done, tools, c) then MissingPrecondition
    else if !Permitted(done, tools, c) then AlreadyPerformed
    else
      match world.tool(|tried|, c)
      case ToolThrew => Unavailable
      case Returned(r, payloadThrows) => if payloadThrows then Unavailable else ResultPayload(r)
  }

  predicate WasCalled(done: seq<Execution>, t: ToolName) {
    exists i :: 0 <= i < |done| && done[i].tool == t
  }

  /** Some execution did just this and succeeded. */
  predicate WasDone(done: seq<Execution>, c: ToolCall) {
    exists i :: 0 <= i < |done| && done[i].tool == c.tool && done[i].args == c.args && done[i].result.success
  }

  /**
   The five answers, each exactly when it is given: no such tool; something it needs was never called; a side
   effect already performed with these arguments; the tool's own result; or, if it threw, nothing to tell.
   */
  lemma AnsweredExactly(world: World, tools: Tools, tried: seq<ToolCall>, c: ToolCall)
    ensures var answer, done, outcome := AnswerTo(world, tools, tried, c), CameBack(world, tried),
        world.tool(|tried|, c);
      var listed := c.tool in tools;
      var ready := listed && forall t :: t in tools[c.tool].needs ==> WasCalled(done, t);
      var again := ready && tools[c.tool].sideEffects && WasDone(done, c);
      && (answer == UnknownTool <==> !listed)
      && (answer == MissingPrecondition <==> listed && !ready)
      && (answer == AlreadyPerformed <==> again)
      && (answer.ResultPayload? <==> ready && !again && outcome.Returned? && !outcome.payloadThrows)
      && (answer.ResultPayload? ==> answer.result == outcome.result)
      && (answer == Unavailable <==> ready && !again && (outcome.ToolThrew? || outcome.payloadThrows))
  {
  }

  /** The calls executed, of those the tool turns asked for: every one that was permitted when its turn came. */
  function TriedOf(world: World, tools: Tools, asked: seq<ToolCall>): seq<ToolCall> {
    if asked == [] then []
    else
      var before, c := TriedOf(world, tools, asked[..|asked| - 1]), asked[|asked| - 1];
      if Permitted(CameBack(world, before), tools, c) then before + [c] else before
  }

  function AnswersOf(world: World, tools: Tools, asked: seq<ToolCall>): seq<Payload> {
    if asked == [] then []
    else
      var before, c := asked[..|asked| - 1], asked[|asked| - 1];
      AnswersOf(world, tools, before) + [AnswerTo(world, tools, TriedOf(world, tools, before), c)]
  }

  lemma AskOneMore(world: World, tools: Tools, asked: seq<ToolCall>, c: ToolCall)
    ensures var tried := TriedOf(world, tools, asked);
      && TriedOf(world, tools, asked + [c])
         == (if Permitted(CameBack(world, tried), tools, c) then tried + [c] else tried)
      && AnswersOf(world, tools, asked + [c]) == AnswersOf(world, tools, asked) + [AnswerTo(world, tools, tried, c)]
  {
    assert (asked + [c])[..|asked|] == asked;
  }

  lemma TryOneMore(world: World, tried: seq<ToolCall>, c: ToolCall)
    ensures CameBack(world, tried + [c])
      == if world.tool(|tried|, c).ToolThrew? then CameBack(world, tried)
         else CameBack(world, tried) + [Execution(c.tool, c.args, world.tool(|tried|, c).result)]
  {
    assert (tried + [c])[..|tried|] == tried;
  }

  /** The run's own sets decide as the executions do. */
  lemma SetsDecide(done: seq<Execution>, tools: Tools, c: ToolCall)
    requires c.tool in tools
    ensures tools[c.tool].needs <= Called(done) <==> NeedsMet(done, tools, c)
    ensures (c.tool, c.args) in Signatures(done, tools) <==> AlreadyDone(done, tools, c)
  {
    CalledAreTheRan(done);
    SignaturesAreTheSucceeded(done, tools);
  }

  /** The calls of the assistant's turns, and the answers, as a message stack holds them. */
  function CallsIn(messages: seq<Message>): seq<ToolCall> {
    if messages == [] then []
    else
      var last := messages[|messages| - 1];
      CallsIn(messages[..|messages| - 1]) + if last.Assistant? then last.calls else []
  }

  function PayloadsIn(messages: seq<Message>): seq<Payload> {
    if messages == [] then []
    else
      var last := messages[|messages| - 1];
      PayloadsIn(messages[..|messages| - 1]) + if last.ToolMessage? then [last.payload] else []
  }

  lemma {:induction false} ReadAppends(a: seq<Message>, b: seq<Message>)
    ensures CallsIn(a + b) == CallsIn(a) + CallsIn(b) && PayloadsIn(a + b) == PayloadsIn(a) + PayloadsIn(b)
  {
    if b == [] {
      assert a + b == a;
    } else {
      var n := |b| - 1;
      assert (a + b)[..|a| + n] == a + b[..n];
      ReadAppends(a, b[..n]);
    }
  }

  lemma ReadOneMore(a: seq<Message>, m: Message)
    ensures CallsIn(a + [m]) == CallsIn(a) + if m.Assistant? then m.calls else []
    ensures PayloadsIn(a + [m]) == PayloadsIn(a) + if m.ToolMessage? then [m.payload] else []
  {
    assert (a + [m])[..|a|] == a;
  }

  lemma {:induction false} AnswersAskNothing(answers: seq<Message>, calls: seq<ToolCall>)
    requires AreAnswers(answers, calls)
    ensures CallsIn(answers) == []
  {
    if answers != [] {
      AnswersAskNothing(answers[..|answers| - 1], calls[..|calls| - 1]);
    }
  }

  lemma NoAnswers(calls: seq<ToolCall>)
    ensures AreAnswers([], calls[..0])
  {
  }

  lemma AreOneMore(answers: seq<Message>, calls: seq<ToolCall>, j: nat, payload: Payload)
    requires j < |calls| && AreAnswers(answers, calls[..j])
    ensures AreAnswers(answers + [ToolMessage(calls[j].id, payload)], calls[..j + 1])
  {
  }

  // ---------------------------------------------------------------- the provider's turns

  /** The assistant asks for tools, and was offered them. */
  predicate IsToolTurn(reply: LlmReply, withheld: bool) {
    reply.Reply? && !reply.stop && reply.calls != [] && !withheld
  }

  /** What the provider answered at call `k`. */
  function ReplyAt(world: World, tools: Tools, stacks: seq<seq<Message>>, withheld: seq<bool>, k: nat): LlmReply
    requires k < |stacks| == |withheld|
  {
    world.llm(k, stacks[k], !withheld[k] && tools != map[])
  }

  function ToolTurns(world: World, tools: Tools, stacks: seq<seq<Message>>, withheld: seq<bool>): nat
    requires |stacks| == |withheld|
  {
    if stacks == [] then 0
    else
      var k := |stacks| - 1;
      ToolTurns(world, tools, stacks[..k], withheld[..k])
      + if IsToolTurn(ReplyAt(world, tools, stacks, withheld, k), withheld[k]) then 1 else 0
  }

  /** Every call of every tool turn was asked for. */
  predicate AllAsked(world: World, tools: Tools, stacks: seq<seq<Message>>, withheld: seq<bool>, asked: seq<ToolCall>)
    requires |stacks| == |withheld|
  {
    forall k :: 0 <= k < |stacks| ==> TurnAsked(world, tools, stacks, withheld, asked, k)
  }

  predicate TurnAsked(world: World, tools: Tools, stacks: seq<seq<Message>>, withheld: seq<bool>, asked: seq<ToolCall>,
                      k: nat)
    requires k < |stacks| == |withheld|
  {
    var reply := ReplyAt(world, tools, stacks, withheld, k);
    IsToolTurn(reply, withheld[k]) ==> forall c :: c in reply.calls ==> c in asked
  }

  lemma NothingAsked(world: World, tools: Tools)
    ensures AllAsked(world, tools, [], [], []) && ToolTurns(world, tools, [], []) == 0
  {
  }

  lemma OneMoreTurn(world: World, tools: Tools, stacks: seq<seq<Message>>, withheld: seq<bool>, asked: seq<ToolCall>,
                    stack: seq<Message>, w: bool, more: seq<ToolCall>)
    requires |stacks| == |withheld| && AllAsked(world, tools, stacks, withheld, asked)
    requires var reply := world.llm(|stacks|, stack, !w && tools != map[]);
      IsToolTurn(reply, w) ==> forall c :: c in reply.calls ==> c in asked + more
    ensures AllAsked(world, tools, stacks + [stack], withheld + [w], asked + more)
    ensures ToolTurns(world, tools, stacks + [stack], withheld + [w]) == ToolTurns(world, tools, stacks, withheld)
      + if IsToolTurn(world.llm(|stacks|, stack, !w && tools != map[]), w) then 1 else 0
  {
    var ss, ws := stacks + [stack], withheld + [w];
    assert ss[..|stacks|] == stacks && ws[..|stacks|] == withheld;
    forall k | 0 <= k < |ss| ensures TurnAsked(world, tools, ss, ws, asked + more, k) {
      if k < |stacks| {
        assert TurnAsked(world, tools, stacks, withheld, asked, k);
        assert ReplyAt(world, tools, ss, ws, k) == ReplyAt(world, tools, stacks, withheld, k);
      }
    }
  }

  lemma PairReads(a: seq<Message>, said: string, note: string)
    ensures CallsIn(a + [Assistant(said, []), User(note)]) == CallsIn(a)
    ensures PayloadsIn(a + [Assistant(said, []), User(note)]) == PayloadsIn(a)
  {
    ReadOneMore(a, Assistant(said, []));
    ReadOneMore(a + [Assistant(said, [])], User(note));
    assert a + [Assistant(said, []), User(note)] == a + [Assistant(said, [])] + [User(note)];
  }

  // ---------------------------------------------------------------- what a reply may say

  /** The reply claims more than the run recorded, in a run that recorded no booking. */
  predicate OutrunsRecord(w: Words, text: string, done: seq<Execution>, requestKnown: bool) {
    w.claimsBooked(text)
    || (!ActedOnDiary(done) && (w.claimsBookingRequest(text) || (!requestKnown && w.claimsRequestSent(text))))
  }

  /** A reply the guards have nothing against, given what the run did. */
  predicate Honest(w: Words, s: Setup, text: string, done: seq<Execution>) {
    var requestKnown := s.requestOnRecord || Requested(done);
    var address, offered := AddressOf(w, done), Offered(done).availability;
    && !address.conflict
    && (address.fact.Some? ==>
       var used := address.fact.value.address;
       && w.claimsAddress(text, used)
       && forall other :: other in address.fact.value.alternatives && w.claimsAddress(text, other) ==>
          w.claimsAddress(other, used) && w.claimsAddress(used, other))
    && (s.bookingGuard && !Booked(done) ==> !OutrunsRecord(w, text, done, requestKnown))
    && (s.requestGuard && !Booked(done) && !requestKnown ==> !w.claimsForwarded(text))
    && (s.availabilityGuard && !ActedOnDiary(done) && w.promisesCheck(text) ==>
          Ran(done, CheckAvailability) && offered.Some? && offered.value.slots != [])
  }

  /** A named day declared shut, or a manual request offered, in a conversation where nothing looked. */
  predicate ClaimsUnlooked(world: World, w: Words, s: Setup, i: nat, text: string, looked: bool) {
    || w.claimsDatedUnavailability(text)
    || (s.requestOfferGuard && !looked && w.offersManualRequest(text) && !world.checkedBefore(i))
  }

  /** A yes still pending was acted on, or asked about once, or came up when no iteration was left to ask. */
  predicate YesHeeded(world: World, s: Setup, i: nat, stack: seq<Message>, done: seq<Execution>, nudges: seq<Nudge>) {
    ActedOnDiary(done) || !s.bookingGuard || PendingYesNudge in nudges || i >= MAX_ITERATIONS - 1
      || !world.pendingYes(i, stack)
  }

  /**
   Such a claim is made only beside times, a held booking or a settled diary, when no iteration was left, or
   when it was asked about once and the server's own check was made, had been made, or could not be made.
   */
  predicate DateHeeded(world: World, w: Words, s: Setup, i: nat, text: string, done: seq<Execution>,
                       nudges: seq<Nudge>) {
    || !s.availabilityGuard || Offered(done).availability.Some? || Offered(done).held || ActedOnDiary(done)
    || i >= MAX_ITERATIONS - 1
    || (&& !w.claimsDatedUnavailability(text)
        && !(s.requestOfferGuard && w.offersManualRequest(text) && !Ran(done, CheckAvailability)
             && !world.checkedBefore(i)))
    || (AvailabilityNudge in nudges
        && (ForcedCheck in nudges || Ran(done, CheckAvailability) || CheckAvailability !in s.tools
           || world.namedDate(text).None?))
  }

  /** The guard asked again before, or no iteration is left to ask in. */
  predicate Spent(n: Nudge, i: nat, attempted: set<Nudge>) {
    n in attempted || i >= MAX_ITERATIONS - 1
  }

  /** A check ran, the run has not acted since, and there is no time to choose. */
  predicate NothingToChoose(s: Setup, claims: Claims, offer: OnOffer) {
    && s.availabilityGuard && !claims.bookingToolSucceeded && claims.availabilityChecked
    && !(offer.availability.Some? && offer.availability.value.slots != [])
  }

  predicate TimesDelivered(offer: OnOffer) {
    && offer.availability.Some?
    && ReplyTimes.Deliverable(offer.availability.value).Some?
    && ReplyTimes.Deliverable(offer.availability.value).value != []
  }

  /** What a fixed reply needs to be true, on the record and the retries of the run in the iteration it ships in. */
  predicate Warranted(s: Setup, f: Fallback, chips: bool, i: nat, claims: Claims, address: Address, offer: OnOffer,
                      attempted: set<Nudge>) {
    match f
    case AddressConflict => address.conflict
    case AddressSafe(fact) => !address.conflict && address.fact == Some(fact) && Spent(AddressNudge, i, attempted)
    case BookingSafe => s.bookingGuard && !claims.bookingRecorded && Spent(BookingNudge, i, attempted)
    case RequestSafe =>
      s.requestGuard && !claims.bookingRecorded && !claims.requestRecorded && Spent(RequestNudge, i, attempted)
    case PromisedCheck =>
      && s.availabilityGuard && !claims.bookingToolSucceeded && !claims.availabilityChecked
      && Spent(PromiseNudge, i, attempted)
    case AlreadyHeld => NothingToChoose(s, claims, offer) && offer.held
    case NoConfirmableTimes => NothingToChoose(s, claims, offer) && !offer.held && offer.availability.Some?
    case CheckFailed => NothingToChoose(s, claims, offer) && !offer.held && offer.availability.None?
    case NoSlotsOnScreen => TimesDelivered(offer) && !chips
    case UnbookableTime => TimesDelivered(offer) && chips
    case AvailabilitySafe => TimesDelivered(offer) && chips
  }

  /** A reply is replaced only where times were delivered, and by a sentence that knows whether chips show. */
  lemma ReplacedBeside(reply: ReplyTimes.Text, offer: OnOffer, customer: ReplyTimes.Text, chips: bool)
    ensures var shipped := ReplyTimes.SafeReply(reply, offer.availability, customer, chips);
      && (!shipped.AsWritten? ==> TimesDelivered(offer))
      && (shipped.NoSlotsOnScreen? ==> !chips) && (shipped.UnbookableTime? || shipped.AvailabilityFallback? ==> chips)
  {
  }

  predicate OffersSlots(e: Execution) {
    e.tool.CheckAvailability? && e.result.success && !e.result.offer.NoOffer?
  }

  /** The slots on screen, and whether a check found the customer already holds that time. */
  datatype OnOffer = OnOffer(availability: Option<ReplyTimes.Availability>, held: bool)

  /** The latest successful check owns the offer; a time found already held, or a mutation, clears it. */
  function OfferAfter(o: OnOffer, e: Execution): OnOffer {
    if OffersSlots(e) then
      if e.result.confirmExisting then OnOffer(None, true)
      else if e.result.offer.Slots? then o.(availability := Some(e.result.offer.av))
      else o
    else if IsMutation(e.tool) && e.result.success then o.(availability := None)
    else o
  }

  function Offered(done: seq<Execution>): OnOffer {
    if done == [] then OnOffer(None, false) else OfferAfter(Offered(done[..|done| - 1]), done[|done| - 1])
  }

  // ---------------------------------------------------------------- what the checks found

  /** A check that came back with times to show, possibly none, or with the customer's own booking. */
  predicate Settles(e: Execution) {
    OffersSlots(e) && (e.result.confirmExisting || e.result.offer.Slots?)
  }

  function LatestCheck(done: seq<Execution>): (latest: Option<Execution>)
    ensures latest.Some? ==> Settles(latest.value)
  {
    if done == [] then None
    else if Settles(done[|done| - 1]) then Some(done[|done| - 1])
    else LatestCheck(done[..|done| - 1])
  }

  predicate FoundHeld(done: seq<Execution>) {
    exists i :: 0 <= i < |done| && Settles(done[i]) && done[i].result.confirmExisting
  }

  /** Until a booking tool succeeds, the offer is the latest check's; that a time is held is remembered for good. */
  lemma {:induction false} OfferIsTheLatestChecks(done: seq<Execution>)
    requires !ActedOnDiary(done)
    ensures Offered(done).held <==> FoundHeld(done)
    ensures Offered(done).availability
      == if LatestCheck(done).None? || LatestCheck(done).value.result.confirmExisting then None
         else Some(LatestCheck(done).value.result.offer.av)
    ensures LatestCheck(done).Some? && LatestCheck(done).value.result.confirmExisting ==> FoundHeld(done)
  {
    if done != [] {
      var n := |done| - 1;
      OneMore(done[..n], done[n]);
      assert done == done[..n] + [done[n]];
      OfferIsTheLatestChecks(done[..n]);
      HeldGrows(done[..n], done[n]);
    }
  }

  lemma HeldGrows(done: seq<Execution>, e: Execution)
    ensures FoundHeld(done + [e]) <==> FoundHeld(done) || (Settles(e) && e.result.confirmExisting)
  {
    var more := done + [e];
    assert more[|done|] == e && forall i :: 0 <= i < |done| ==> more[i] == done[i];
  }

  /** What replaces a promise to check, and what would be true of the latest check. */
  function PromiseReplacement(offer: OnOffer): Fallback {
    if offer.held then AlreadyHeld else if offer.availability.Some? then NoConfirmableTimes else CheckFailed
  }

  function TrueOfLatest(latest: Option<Execution>): Fallback {
    if latest.None? then CheckFailed
    else if latest.value.result.confirmExisting then AlreadyHeld
    else NoConfirmableTimes
  }

  /**
   The sentence that replaces a promise is true of the latest check exactly when that check is the one that
   found the customer's booking, or none in the run did.
   */
  lemma ReplacementFitsLatestCheck(done: seq<Execution>)
    requires !ActedOnDiary(done)
    ensures PromiseReplacement(Offered(done)) == TrueOfLatest(LatestCheck(done))
      <==> !FoundHeld(done) || (LatestCheck(done).Some? && LatestCheck(done).value.result.confirmExisting)
  {
    OfferIsTheLatestChecks(done);
  }

  /** Two checks, the second with an empty diary: the run says the customer already holds the time. */
  lemma HeldOutlivesItsCheck(args: string, held: ToolResult, empty: ToolResult)
    requires held.success && held.confirmExisting && held.offer.Slots?
    requires empty.success && !empty.confirmExisting && empty.offer.Slots? && empty.offer.av.slots == []
    ensures var done := [Execution(CheckAvailability, args, held), Execution(CheckAvailability, args, empty)];
      PromiseReplacement(Offered(done)) == AlreadyHeld && TrueOfLatest(LatestCheck(done)) == NoConfirmableTimes
  {
    var first, second := Execution(CheckAvailability, args, held), Execution(CheckAvailability, args, empty);
    assert [first, second][..1] == [first] && [first][..0] == [];
    assert Offered([first]) == OnOffer(None, true);
  }

  // ---------------------------------------------------------------- which address was used

  predicate SameAddress(w: Words, one: string, two: string) {
    w.claimsAddress(one, two) && w.claimsAddress(two, one)
  }

  /** The text states the fact's address, and none of the others it must not present instead. */
  predicate StatesAddress(w: Words, text: string, fact: Fact) {
    && w.claimsAddress(text, fact.address)
    && forall other :: other in fact.alternatives && !SameAddress(w, other, fact.address) ==>
       !w.claimsAddress(text, other)
  }

  /** The address the run's tools used; `conflict` once two of them disagreed. */
  datatype Address = Address(fact: Option<Fact>, conflict: bool)

  /** The newer fact, with the other addresses of both; or the older, and a conflict. */
  function MergeFacts(w: Words, current: Option<Fact>, next: Fact): (Fact, bool) {
    if current.None? then (next, false)
    else if !SameAddress(w, current.value.address, next.address) then (current.value, true)
    else (next.(alternatives := current.value.alternatives + next.alternatives), false)
  }

  function AddressAfter(w: Words, a: Address, e: Execution): Address {
    if Bears(e) then
      var merged := MergeFacts(w, a.fact, e.result.fact.value);
      Address(Some(merged.0), a.conflict || merged.1)
    else a
  }

  function AddressOf(w: Words, done: seq<Execution>): Address {
    if done == [] then Address(None, false) else AddressAfter(w, AddressOf(w, done[..|done| - 1]), done[|done| - 1])
  }

  /** A success that says which address it used. */
  predicate Bears(e: Execution) {
    e.result.success && e.result.fact.Some?
  }

  function LastFact(done: seq<Execution>): Option<Fact> {
    if done == [] then None
    else if Bears(done[|done| - 1]) then done[|done| - 1].result.fact
    else LastFact(done[..|done| - 1])
  }

  /** Execution `j` used another address than the one used last before it. */
  predicate Disagrees(w: Words, done: seq<Execution>, j: int) {
    && 0 <= j < |done| && Bears(done[j]) && LastFact(done[..j]).Some?
    && var before, now := LastFact(done[..j]).value.address, done[j].result.fact.value.address;
       !w.claimsAddress(before, now) || !w.claimsAddress(now, before)
  }

  /**
   The run's address is in conflict exactly when some tool used another address than the one before it; while
   none did, its address and its use are those of the last tool that named one, and no other address is forgotten.
   */
  lemma {:induction false} AddressIsTheLastUsed(w: Words, done: seq<Execution>)
    ensures AddressOf(w, done).conflict <==> exists j :: Disagrees(w, done, j)
    ensures !AddressOf(w, done).conflict ==>
      var fact, last := AddressOf(w, done).fact, LastFact(done);
      && (fact.Some? <==> last.Some?)
      && (fact.Some? ==> fact.value.address == last.value.address && fact.value.use == last.value.use)
      && (forall i :: 0 <= i < |done| && Bears(done[i]) ==>
            fact.Some? && done[i].result.fact.value.alternatives <= fact.value.alternatives)
  {
    if done != [] {
      var n := |done| - 1;
      AddressIsTheLastUsed(w, done[..n]);
      forall j | 0 <= j < n ensures Disagrees(w, done[..n], j) <==> Disagrees(w, done, j) {
        assert done[..n][..j] == done[..j];
      }
      if exists j :: Disagrees(w, done[..n], j) {
        var j :| Disagrees(w, done[..n], j);
        assert Disagrees(w, done, j);
      }
      if AddressOf(w, done).conflict && !AddressOf(w, done[..n]).conflict {
        assert Disagrees(w, done, n);
      }
    }
  }

  /** The use a tool gives its address: a check, a booking it recorded, or a request. */
  predicate UsedAsTheToolsDo(e: Execution) {
    Bears(e) ==>
      var use := e.result.fact.value.use;
      && (use.ForAvailability? ==> e.tool.CheckAvailability?)
      && (use.ForBooking? ==> IsMutation(e.tool) && !IsRequest(e))
      && (use.ForRequest? ==> IsMutation(e.tool) && IsRequest(e))
  }

  /** So the fixed sentence about the address claims a booking, a request or a check only if the run made one. */
  lemma AddressSentenceIsTrue(w: Words, done: seq<Execution>, fact: Fact)
    requires forall i :: 0 <= i < |done| ==> UsedAsTheToolsDo(done[i])
    requires AddressOf(w, done) == Address(Some(fact), false)
    ensures match fact.use
      case ForAvailability => Ran(done, CheckAvailability)
      case ForBooking => Booked(done)
      case ForRequest => Requested(done)
  {
    AddressIsTheLastUsed(w, done);
    var i := LastBearer(done);
    assert UsedAsTheToolsDo(done[i]);
  }

  lemma {:induction false} LastBearer(done: seq<Execution>) returns (i: nat)
    requires LastFact(done).Some?
    ensures i < |done| && Bears(done[i]) && done[i].result.fact == LastFact(done)
  {
    i := |done| - 1;
    if !Bears(done[i]) {
      i := LastBearer(done[..i]);
    }
  }

  /** What the run may claim: flags the tools' results set and nothing clears. */
  datatype Claims = Claims(
    bookingRecorded: bool, bookingToolSucceeded: bool, requestRecorded: bool, escalationRequested: bool,
      availabilityChecked: bool)

  function ClaimsAfter(s: Setup, c: Claims, e: Execution): Claims {
    Claims(c.bookingRecorded || (IsMutation(e.tool) && e.result.success && !IsRequest(e)),
           c.bookingToolSucceeded || (IsMutation(e.tool) && e.result.success),
           c.requestRecorded || RecordsRequest(e),
           c.escalationRequested || (e.tool.EscalateToHuman? && e.result.success && s.botOwned),
           c.availabilityChecked || e.tool.CheckAvailability?)
  }

  function ClaimsOf(s: Setup, done: seq<Execution>): Claims {
    if done == [] then Claims(false, false, s.requestOnRecord, false, false)
    else ClaimsAfter(s, ClaimsOf(s, done[..|done| - 1]), done[|done| - 1])
  }

  /** The record, read off the executions on their own. */
  function RecordOf(s: Setup, done: seq<Execution>): Claims {
    Claims(Booked(done), ActedOnDiary(done), s.requestOnRecord || Requested(done), s.botOwned && Escalated(done),
           Ran(done, CheckAvailability))
  }

  /** Every flag says what the executions, read on their own, amount to. */
  lemma {:induction false} ClaimsAreTrue(s: Setup, done: seq<Execution>)
    ensures ClaimsOf(s, done) == RecordOf(s, done)
  {
    if done != [] {
      var n := |done| - 1;
      ClaimsAreTrue(s, done[..n]);
      OneMore(done[..n], done[n]);
      assert done == done[..n] + [done[n]];
    }
  }

  const DIARY := {CreateBooking, RescheduleBooking, CancelBooking, UpdateBooking}

  /** In the tools' own names: a write to the diary that stands. */
  predicate WroteBooking(e: Execution) {
    e.result.success && !e.result.requested && e.tool in DIARY
  }

  predicate ReachedDiary(e: Execution) {
    e.result.success && e.tool in DIARY + {RequestAppointment}
  }

  /** A hand-over, a requested appointment, a lead captured, or a write the diary's owner has yet to confirm. */
  predicate TookRequest(e: Execution) {
    && e.result.success
    && (|| e.tool in {EscalateToHuman, RequestAppointment}
        || (e.tool == CaptureLead && e.result.captured)
        || (e.tool in DIARY && e.result.requested))
  }

  lemma FlagsMeanExactly(s: Setup, done: seq<Execution>)
    ensures var c := ClaimsOf(s, done);
      && (c.bookingRecorded <==> exists i :: 0 <= i < |done| && WroteBooking(done[i]))
      && (c.bookingToolSucceeded <==> exists i :: 0 <= i < |done| && ReachedDiary(done[i]))
      && (c.requestRecorded <==> s.requestOnRecord || exists i :: 0 <= i < |done| && TookRequest(done[i]))
      && (c.escalationRequested
          <==> s.botOwned && exists i :: 0 <= i < |done| && done[i].tool == EscalateToHuman && done[i].result.success)
      && (c.availabilityChecked <==> exists i :: 0 <= i < |done| && done[i].tool == CheckAvailability)
  {
    ClaimsAreTrue(s, done);
  }

  /**
   `availabilityChecked` is set exactly by a check that came back: one that throws, however often, leaves it as
   if nothing had looked.
   */
  lemma CheckedIfReturned(world: World, s: Setup, tried: seq<ToolCall>)
    ensures ClaimsOf(s, CameBack(world, tried)).availabilityChecked <==> SomeReturned(world, tried, CheckAvailability)
  {
    ClaimsAreTrue(s, CameBack(world, tried));
    RanIfReturned(world, tried, CheckAvailability);
  }

  /** One check that throws is such a run: it was executed, and the run still counts as one that never looked. */
  lemma ThrownCheckIsForgotten(world: World, s: Setup, c: ToolCall)
    requires c.tool.CheckAvailability? && world.tool(0, c).ToolThrew?
    ensures !ClaimsOf(s, CameBack(world, [c])).availabilityChecked
  {
    CheckedIfReturned(world, s, [c]);
  }

  /** What each record of the run is, after one more execution. */
  lemma RecordsGrow(w: Words, s: Setup, done: seq<Execution>, e: Execution)
    ensures Called(done + [e]) == Called(done) + {e.tool}
    ensures Signatures(done + [e], s.tools)
      == if SideEffect(e, s.tools) then Signatures(done, s.tools) + {(e.tool, e.args)} else Signatures(done, s.tools)
    ensures ClaimsOf(s, done + [e]) == ClaimsAfter(s, ClaimsOf(s, done), e)
    ensures AddressOf(w, done + [e]) == AddressAfter(w, AddressOf(w, done), e)
    ensures Offered(done + [e]) == OfferAfter(Offered(done), e)
  {
    assert (done + [e])[..|done|] == done;
  }

  lemma DisciplineExtends(done: seq<Execution>, e: Execution, tools: Tools)
    requires Disciplined(done, tools) && e.tool in tools && tools[e.tool].needs <= Called(done)
    requires tools[e.tool].sideEffects ==> (e.tool, e.args) !in Signatures(done, tools)
    ensures Disciplined(done + [e], tools)
  {
    assert (done + [e])[..|done|] == done;
  }

  /** A check that came back with times to show, or with the customer's own booking. */
  predicate Shows(e: Execution) {
    && e.tool == CheckAvailability && e.result.success
    && (e.result.offer.Slots? || (e.result.confirmExisting && e.result.offer.Malformed?))
  }

  /** The last check that showed times, with no check and no write to the diary after it. */
  predicate IsLatestOffer(done: seq<Execution>, j: int) {
    && 0 <= j < |done| && Shows(done[j]) && !done[j].result.confirmExisting
    && forall m :: j < m < |done| ==> !Shows(done[m]) && !ReachedDiary(done[m])
  }

  predicate ShowsHeld(e: Execution) {
    Shows(e) && e.result.confirmExisting
  }

  lemma OneMoreOffer(done: seq<Execution>, e: Execution, j: int)
    ensures IsLatestOffer(done + [e], j) <==>
      if j == |done| then Shows(e) && !e.result.confirmExisting
      else IsLatestOffer(done, j) && !Shows(e) && !ReachedDiary(e)
  {
    var more := done + [e];
    assert more[|done|] == e && forall i :: 0 <= i < |done| ==> more[i] == done[i];
  }

  lemma OneMoreHeld(done: seq<Execution>, e: Execution)
    ensures (exists i :: 0 <= i < |done + [e]| && ShowsHeld((done + [e])[i]))
      <==> ShowsHeld(e) || exists i :: 0 <= i < |done| && ShowsHeld(done[i])
  {
    var more := done + [e];
    assert more[|done|] == e && forall i :: 0 <= i < |done| ==> more[i] == done[i];
  }

  /** How one execution moves the offer. */
  lemma OfferMoves(o: OnOffer, e: Execution)
    ensures var after := OfferAfter(o, e);
      && after.held == (o.held || ShowsHeld(e))
      && after.availability == if Shows(e) && !e.result.confirmExisting then Some(e.result.offer.av)
                               else if Shows(e) || ReachedDiary(e) then None
                               else o.availability
  {
  }

  /**
   In every run, the times on screen are those of the latest check, until a write to the diary, or a check that
   found the customer's own booking, takes them away; that such a check was made is never forgotten.
   */
  lemma {:induction false} OfferIsTheLatestWord(done: seq<Execution>)
    ensures Offered(done).held <==> exists i :: 0 <= i < |done| && ShowsHeld(done[i])
    ensures Offered(done).availability.Some? <==> exists j :: IsLatestOffer(done, j)
    ensures forall j :: IsLatestOffer(done, j) ==> Offered(done).availability == Some(done[j].result.offer.av)
  {
    if done != [] {
      var n := |done| - 1;
      var before, e := done[..n], done[n];
      OfferIsTheLatestWord(before);
      OfferMoves(Offered(before), e);
      OneMoreHeld(before, e);
      assert done == before + [e];
      forall j ensures IsLatestOffer(done, j) <==>
        if j == n then Shows(e) && !e.result.confirmExisting
        else IsLatestOffer(before, j) && !Shows(e) && !ReachedDiary(e)
      {
        OneMoreOffer(before, e, j);
      }
      hide Shows, ShowsHeld, ReachedDiary, OfferAfter;
      if exists j :: IsLatestOffer(before, j) {
        var j :| IsLatestOffer(before, j);
        assert j != n && (IsLatestOffer(done, j) <==> !Shows(e) && !ReachedDiary(e));
      }
      assert IsLatestOffer(done, n) <==> Shows(e) && !e.result.confirmExisting;
    }
  }
}
