/** Requests an agent makes of the user and their answers: one at a time, each
    answered at most once. `runtime.rs`. */
module Interactions {
  import opened Text
  import opened DetailText
  import opened UserTexts
  import opened Activity
  import opened Projection
  import opened TurnRetention
  import opened ProjectionRuns
  import opened Accounting
  import opened TurnLog
  import opened SessionRuns

  /** The agent request behind the pending interaction. */
  datatype OpenRequest = OpenRequest(interaction: string, rpcId: string, kind: InteractionKind)

  /** What a session holds of its requests. `asked` are the requests that came,
      `responses` those answered, each by its id; nothing reads the two. */
  datatype Requests = Requests(open: Option<OpenRequest>, resolved: map<string, InteractionState>, next: nat,
                               asked: seq<string>, responses: seq<(string, InteractionState)>)

  datatype Session = Session(requests: Requests, projection: Projection)

  datatype AnswerOutcome = Accepted | NotPending(state: Option<InteractionState>) | InvalidAnswer

  function NewSession(projection: Projection): Session {
    Session(Requests(None, map[], 0, [], []), projection)
  }

  /** `interaction:{n}` */
  function InteractionName(n: nat): string {
    "interaction:" + Decimal(n)
  }

  // ----- The operations

  /** `Interactions::close` */
  function Close(r: Requests, state: InteractionState): Requests {
    match r.open
    case Some(request) => r.(open := None, resolved := r.resolved[request.interaction := state])
    case None => r
  }

  function Respond(r: Requests, rpcId: string, state: InteractionState): Requests {
    r.(responses := r.responses + [(rpcId, state)])
  }

  datatype Request = Request(rpcId: string, kind: InteractionKind, title: string, toolCall: Option<ToolUpdate>,
                             options: seq<InteractionOption>)

  function PendingOf(request: Request, interaction: string): PendingInteraction {
    PendingInteraction(interaction, request.kind, request.title,
                       match request.toolCall case Some(call) => Some(call.id) case None => None,
                       request.options, InteractionState.Pending)
  }

  /** `open_interaction`, for a session of the connection */
  function OpenInteraction(s: Session, request: Request): Session {
    var r := s.requests.(asked := s.requests.asked + [request.rpcId]);
    if r.open.Some? then s.(requests := Respond(r, request.rpcId, Cancelled))
    else
      var interaction := InteractionName(r.next + 1);
      var p := match request.toolCall case Some(call) => UpsertTool(s.projection, call) case None => s.projection;
      Session(r.(next := r.next + 1, open := Some(OpenRequest(interaction, request.rpcId, request.kind))),
              SetPending(p, PendingOf(request, interaction)))
  }

  /** The request an answer is to is open, but no interaction is pending: the
      code panics. */
  predicate FindsNone(s: Session, interaction: string) {
    s.requests.open.Some? && s.requests.open.value.interaction == interaction && s.projection.snapshot.pending.None?
  }

  /** `AgentRuntime::answer`; `fits` is the validation of an answer */
  function AnswerInteraction(s: Session, interaction: string, answer: Answer,
                             fits: (PendingInteraction, Answer) -> bool): (Session, AnswerOutcome)
    requires !FindsNone(s, interaction)
  {
    var r := s.requests;
    if r.open.None? || r.open.value.interaction != interaction then
      (s, NotPending(if interaction in r.resolved then Some(r.resolved[interaction]) else None))
    else if !fits(s.projection.snapshot.pending.value, answer) then (s, InvalidAnswer)
    else
      (Session(Respond(Close(r, Answered), r.open.value.rpcId, Answered),
               ResolvePending(s.projection, interaction, Answered, Some(answer))),
       Accepted)
  }

  /** `Session::cancel` */
  function CancelSession(s: Session): Session {
    if !TurnActive(s.projection) then s
    else
      var p := CancellingTurn(s.projection);
      match s.requests.open
      case Some(request) =>
        Session(Respond(Close(s.requests, Cancelled), request.rpcId, Cancelled),
                ResolvePending(p, request.interaction, Cancelled, None))
      case None => s.(projection := p)
  }

  /** The end of a prompt, once the agent answered it */
  function EndPrompt(s: Session, turnId: string, reason: StopReason, error: Option<string>): Session {
    Session(Close(s.requests, PendingOutcome(reason)), FinishTurn(s.projection, turnId, reason, error))
  }

  /** `Session::end` */
  function EndSession(s: Session): Session {
    Session(Close(s.requests, Expired), SetWriter(InterruptTurn(s.projection), NoWriter))
  }

  datatype Event =
    | Asks(request: Request)
    | Answers(interaction: string, answer: Answer, fits: (PendingInteraction, Answer) -> bool)
    | Cancels
    | PromptEnds(turnId: string, reason: StopReason, error: Option<string>)
    | SessionEnds
    | Does(action: Action)

  /** What else befalls the projection: nothing that is a request's. */
  predicate IsOther(action: Action) {
    !action.Cancel? && !action.Finish? && !action.Interrupt? && !action.Pend? && !action.Resolve?
  }

  /** The code panics on the event. */
  predicate PanicsOn(s: Session, event: Event) {
    match event
    case Answers(interaction, _, _) => FindsNone(s, interaction)
    case Does(action) => IsOther(action) && Panics(s.projection, action)
    case _ => false
  }

  function Happen(s: Session, event: Event): Session
    requires !PanicsOn(s, event)
  {
    hide Panics, FindsNone;
    match event
    case Asks(request) => OpenInteraction(s, request)
    case Answers(interaction, answer, fits) => AnswerInteraction(s, interaction, answer, fits).0
    case Cancels => CancelSession(s)
    case PromptEnds(turnId, reason, error) => EndPrompt(s, turnId, reason, error)
    case SessionEnds => EndSession(s)
    case Does(action) => if IsOther(action) then s.(projection := Step(s.projection, action)) else s
  }

  /** The session after `events`, none if the code panics on one of them. */
  function Life(s: Session, events: seq<Event>): Option<Session> {
    if events == [] then Some(s)
    else
      var event := events[|events| - 1];
      match Life(s, events[..|events| - 1])
      case Some(before) => if PanicsOn(before, event) then None else Some(Happen(before, event))
      case None => None
  }

  // ----- What holds throughout

  /** The open request is the pending interaction: `answer` finds it. */
  predicate OpenIsPending(s: Session) {
    s.requests.open.Some? ==>
      && s.projection.snapshot.pending.Some?
      && s.projection.snapshot.pending.value.id == s.requests.open.value.interaction
      && s.projection.snapshot.pending.value.kind == s.requests.open.value.kind
      && s.projection.snapshot.pending.value.state == InteractionState.Pending
  }

  /** Interactions are named in turn; the open one is the last, unresolved. */
  ghost predicate Named(r: Requests) {
    && (forall id :: id in r.resolved ==> exists n :: 1 <= n <= r.next && id == InteractionName(n))
    && (forall id :: id in r.resolved ==> r.resolved[id] != InteractionState.Pending)
    && (r.open.Some? ==> r.next > 0 && r.open.value.interaction == InteractionName(r.next)
                         && r.open.value.interaction !in r.resolved)
  }

  function Times(ids: seq<string>, id: string): nat {
    if ids == [] then 0 else Times(ids[..|ids| - 1], id) + (if ids[|ids| - 1] == id then 1 else 0)
  }

  function TimesAnswered(responses: seq<(string, InteractionState)>, id: string): nat {
    if responses == [] then 0
    else TimesAnswered(responses[..|responses| - 1], id) + (if responses[|responses| - 1].0 == id then 1 else 0)
  }

  predicate IsOpen(r: Requests, id: string) {
    r.open.Some? && r.open.value.rpcId == id
  }

  /** No request is answered more often than asked, the open one not yet. */
  ghost predicate Owed(r: Requests) {
    forall id :: TimesAnswered(r.responses, id) + (if IsOpen(r, id) then 1 else 0) <= Times(r.asked, id)
  }

  ghost predicate Orderly(s: Session) {
    OpenIsPending(s) && Named(s.requests) && Owed(s.requests) && Sound(s.projection)
  }

  // ----- The projection's part

  lemma BeginLeavesPending(p: Projection, turnId: string, text: string, segments: seq<Segment>)
    requires Steady(p) && !TurnActive(p)
    ensures BeginTurn(p, turnId, text, segments).snapshot.pending == p.snapshot.pending
  {
    hide Steady, PutUserMessage, Extend, StatusOf;
    var limit := p.retention.itemDetail;
    var q := p.(open := None);
    SameSteady(p, q);
    SetTurnSound(q, Some(turnId), InTurn, None);
    ExtendHolds(None, TextBlock(""), text, limit);
    PutUserSteady(SetTurn(q, Some(turnId), InTurn, None), "user:" + turnId,
                  Extend(None, TextBlock(""), text, limit).0, Extend(None, TextBlock(""), text, limit).1, segments);
  }

  lemma OthersLeavePending(p: Projection, action: Action)
    requires Sound(p) && IsOther(action) && !Panics(p, action)
    ensures Sound(Step(p, action)) && Step(p, action).snapshot.pending == p.snapshot.pending
  {
    hide Steady, StatusIs, BeginTurn, Step, Panics;
    StepSound(p, action);
    match action
    case Begin(turnId, text, segments) => BeginStep(p, turnId, text, segments);
    case _ => ItemsQuiet(p, action);
  }

  lemma BeginStep(p: Projection, turnId: string, text: string, segments: seq<Segment>)
    requires Steady(p)
    ensures Step(p, Begin(turnId, text, segments)).snapshot.pending == p.snapshot.pending
  {
    hide Steady, BeginTurn;
    if !TurnActive(p) { BeginLeavesPending(p, turnId, text, segments); }
  }

  lemma CancellingLeavesPending(p: Projection)
    requires Sound(p)
    ensures Sound(CancellingTurn(p)) && CancellingTurn(p).snapshot.pending == p.snapshot.pending
  {
    hide Steady, StatusOf;
    StepSound(p, Action.Cancel);
  }

  lemma PendShows(p: Projection, pending: PendingInteraction)
    requires Sound(p) && pending.state == InteractionState.Pending
    ensures Sound(SetPending(p, pending)) && SetPending(p, pending).snapshot.pending == Some(pending)
  {
    hide Steady, StatusOf;
    StepSound(p, Pend(pending));
  }

  lemma ToolLeavesPending(p: Projection, call: ToolUpdate)
    requires Sound(p)
    ensures Sound(UpsertTool(p, call)) && UpsertTool(p, call).snapshot.pending == p.snapshot.pending
  {
    hide Steady, StatusIs, UpsertTool;
    ToolSteady(p, call);
    QuietStatus(p, UpsertTool(p, call));
  }

  lemma ResolveKeepsSound(p: Projection, id: string, state: InteractionState, answer: Option<Answer>)
    requires Sound(p)
    ensures Sound(ResolvePending(p, id, state, answer))
  {
    hide Sound, ResolvePending;
    ResolveSound(p, id, state, answer);
  }

  lemma EndKeepsSound(p: Projection)
    requires Sound(p)
    ensures Sound(SetWriter(InterruptTurn(p), NoWriter))
  {
    hide Sound, InterruptTurn, SetWriter;
    StepSound(p, Action.Interrupt);
    StepSound(InterruptTurn(p), WrittenBy(NoWriter));
  }

  // ----- The names of interactions

  lemma NamesDiffer(m: nat, n: nat)
    requires m != n
    ensures InteractionName(m) != InteractionName(n)
  {
    DecimalDiffers(m, n);
    assert InteractionName(m)[12..] == Decimal(m) && InteractionName(n)[12..] == Decimal(n);
  }

  /** The next interaction has a name of its own. */
  lemma NextIsNew(r: Requests)
    requires Named(r)
    ensures InteractionName(r.next + 1) !in r.resolved
  {
    hide InteractionName;
    if InteractionName(r.next + 1) in r.resolved {
      var n :| 1 <= n <= r.next && InteractionName(r.next + 1) == InteractionName(n);
      NamesDiffer(n, r.next + 1);
    }
  }

  lemma CloseNames(r: Requests, state: InteractionState)
    requires Named(r) && state != InteractionState.Pending
    ensures Named(Close(r, state))
  {
    hide InteractionName;
  }

  // ----- The tally of requests

  lemma OneAsked(asked: seq<string>, rpcId: string, id: string)
    ensures Times(asked + [rpcId], id) == Times(asked, id) + (if rpcId == id then 1 else 0)
  {
    assert (asked + [rpcId])[..|asked|] == asked;
  }

  lemma OneAnswered(responses: seq<(string, InteractionState)>, rpcId: string, state: InteractionState, id: string)
    ensures TimesAnswered(responses + [(rpcId, state)], id) == TimesAnswered(responses, id) + (if rpcId == id then 1 else 0)
  {
    assert (responses + [(rpcId, state)])[..|responses|] == responses;
  }

  lemma CloseOwes(r: Requests, state: InteractionState)
    requires Owed(r)
    ensures Owed(Close(r, state))
    ensures r.open.Some? ==> Owed(Respond(Close(r, state), r.open.value.rpcId, state))
  {
    hide Times, TimesAnswered;
    var closed := Close(r, state);
    forall id ensures TimesAnswered(closed.responses, id) <= Times(closed.asked, id) {
      assert TimesAnswered(r.responses, id) + (if IsOpen(r, id) then 1 else 0) <= Times(r.asked, id);
    }
    if r.open.Some? {
      var answered := Respond(closed, r.open.value.rpcId, state);
      forall id ensures TimesAnswered(answered.responses, id) <= Times(answered.asked, id) {
        OneAnswered(r.responses, r.open.value.rpcId, state, id);
        assert TimesAnswered(r.responses, id) + (if IsOpen(r, id) then 1 else 0) <= Times(r.asked, id);
      }
    }
  }

  lemma AskOwes(r: Requests, rpcId: string, kind: InteractionKind, interaction: string)
    requires Owed(r)
    ensures var asked := r.(asked := r.asked + [rpcId]);
            && Owed(Respond(asked, rpcId, Cancelled))
            && (r.open.None? ==> Owed(asked.(next := r.next + 1, open := Some(OpenRequest(interaction, rpcId, kind)))))
  {
    hide Times, TimesAnswered;
    var asked := r.(asked := r.asked + [rpcId]);
    forall id ensures TimesAnswered(r.responses + [(rpcId, Cancelled)], id) + (if IsOpen(r, id) then 1 else 0) <= Times(asked.asked, id)
    {
      OneAsked(r.asked, rpcId, id);
      OneAnswered(r.responses, rpcId, Cancelled, id);
      assert TimesAnswered(r.responses, id) + (if IsOpen(r, id) then 1 else 0) <= Times(r.asked, id);
    }
    if r.open.None? {
      forall id ensures TimesAnswered(r.responses, id) + (if rpcId == id then 1 else 0) <= Times(asked.asked, id) {
        OneAsked(r.asked, rpcId, id);
        assert TimesAnswered(r.responses, id) + (if IsOpen(r, id) then 1 else 0) <= Times(r.asked, id);
      }
    }
  }

  // ----- Every event

  lemma AskOrderly(s: Session, request: Request)
    requires Orderly(s)
    ensures Orderly(OpenInteraction(s, request))
  {
    hide Sound, InteractionName, UpsertTool, SetPending, Owed;
    var r := s.requests;
    AskOwes(r, request.rpcId, request.kind, InteractionName(r.next + 1));
    if r.open.None? {
      NextIsNew(r);
      var p := match request.toolCall case Some(call) => UpsertTool(s.projection, call) case None => s.projection;
      if request.toolCall.Some? { ToolLeavesPending(s.projection, request.toolCall.value); }
      PendShows(p, PendingOf(request, InteractionName(r.next + 1)));
    }
  }

  lemma AnswerOrderly(s: Session, interaction: string, answer: Answer, fits: (PendingInteraction, Answer) -> bool)
    requires Orderly(s)
    ensures !FindsNone(s, interaction) && Orderly(AnswerInteraction(s, interaction, answer, fits).0)
  {
    hide Sound, InteractionName, ResolvePending, Owed;
    CloseOwes(s.requests, Answered);
    CloseNames(s.requests, Answered);
    ResolveKeepsSound(s.projection, interaction, Answered, Some(answer));
  }

  lemma CancelOrderly(s: Session)
    requires Orderly(s)
    ensures Orderly(CancelSession(s))
  {
    hide Sound, InteractionName, ResolvePending, Owed, CancellingTurn;
    CloseOwes(s.requests, Cancelled);
    CloseNames(s.requests, Cancelled);
    CancellingLeavesPending(s.projection);
    if s.requests.open.Some? {
      ResolveKeepsSound(CancellingTurn(s.projection), s.requests.open.value.interaction, Cancelled, None);
    }
  }

  lemma EndsOrderly(s: Session, turnId: string, reason: StopReason, error: Option<string>)
    requires Orderly(s)
    ensures Orderly(EndPrompt(s, turnId, reason, error)) && Orderly(EndSession(s))
  {
    hide Sound, InteractionName, Owed, FinishTurn, InterruptTurn, SetWriter;
    CloseOwes(s.requests, PendingOutcome(reason));
    CloseNames(s.requests, PendingOutcome(reason));
    CloseOwes(s.requests, Expired);
    CloseNames(s.requests, Expired);
    FinishSound(s.projection, turnId, reason, error);
    EndKeepsSound(s.projection);
  }

  lemma HappenOrderly(s: Session, event: Event)
    requires Orderly(s) && !PanicsOn(s, event)
    ensures Orderly(Happen(s, event))
  {
    hide Orderly, OpenInteraction, AnswerInteraction, CancelSession, EndPrompt, EndSession, Step, Panics, FindsNone;
    match event
    case Asks(request) => AskOrderly(s, request);
    case Answers(interaction, answer, fits) => AnswerOrderly(s, interaction, answer, fits);
    case Cancels => CancelOrderly(s);
    case PromptEnds(turnId, reason, error) => EndsOrderly(s, turnId, reason, error);
    case SessionEnds => EndsOrderly(s, "", EndTurn, None);
    case Does(action) => if IsOther(action) { DoesOrderly(s, action); }
  }

  lemma DoesOrderly(s: Session, action: Action)
    requires Orderly(s) && IsOther(action) && !Panics(s.projection, action)
    ensures Orderly(s.(projection := Step(s.projection, action)))
  {
    hide Sound, InteractionName, Owed, Step, Panics;
    OthersLeavePending(s.projection, action);
  }

  /** In good order, an answer never panics: only a chunk or a lookup may. */
  lemma OnlyTextsPanic(s: Session, event: Event)
    requires Orderly(s)
    ensures PanicsOn(s, event) <==>
              event.Does? && (event.action.Message? || event.action.Look?) && Panics(s.projection, event.action)
  {
    hide Named, Owed, Sound, Addressed, Misfits, LookupMisfits;
  }

  /** Whatever befalls a session, its open request is the pending interaction,
      at most one is open, and none is answered more often than it was asked. */
  lemma {:induction false} LifeIsOrderly(connection: Connection, history: HistoryState, replay: bool, writer: WriterState,
                                         retention: Retention, events: seq<Event>)
    ensures match Life(NewSession(NewProjection(connection, history, replay, writer, retention)), events)
            case Some(s) => Orderly(s)
            case None => true
  {
    hide Orderly, Happen, PanicsOn;
    var s := NewSession(NewProjection(connection, history, replay, writer, retention));
    if events == [] {
      NewIsOrderly(connection, history, replay, writer, retention);
    } else {
      LifeIsOrderly(connection, history, replay, writer, retention, events[..|events| - 1]);
      match Life(s, events[..|events| - 1])
      case Some(before) => if !PanicsOn(before, events[|events| - 1]) { HappenOrderly(before, events[|events| - 1]); }
      case None =>
    }
  }

  lemma NewIsOrderly(connection: Connection, history: HistoryState, replay: bool, writer: WriterState, retention: Retention)
    ensures Orderly(NewSession(NewProjection(connection, history, replay, writer, retention)))
  {
    hide Sound;
    NewIsSound(connection, history, replay, writer, retention);
  }

  // ----- Outcomes are final

  lemma ResolvedStays(s: Session, event: Event, id: string)
    requires Orderly(s) && !PanicsOn(s, event) && id in s.requests.resolved
    ensures var r := Happen(s, event).requests; id in r.resolved && r.resolved[id] == s.requests.resolved[id]
  {
    hide InteractionName, Owed, Sound, ResolvePending, FinishTurn, InterruptTurn, SetWriter, UpsertTool, SetPending, Step;
    hide CancellingTurn, TurnActive, Panics;
  }

  /** Once resolved, an interaction keeps its outcome, and every later answer
      learns it and changes nothing. */
  lemma OutcomeIsFinal(s: Session, events: seq<Event>, id: string, answer: Answer,
                       fits: (PendingInteraction, Answer) -> bool)
    requires Orderly(s) && id in s.requests.resolved && Life(s, events).Some?
    ensures var later := Life(s, events).value;
            && Orderly(later) && !FindsNone(later, id)
            && AnswerInteraction(later, id, answer, fits) == (later, NotPending(Some(s.requests.resolved[id])))
  {
    hide Orderly, Happen, AnswerInteraction, PanicsOn, FindsNone;
    LifeKeepsResolved(s, events, id);
    LateAnswer(Life(s, events).value, id, answer, fits);
  }

  lemma {:induction false} LifeKeepsResolved(s: Session, events: seq<Event>, id: string)
    requires Orderly(s) && id in s.requests.resolved && Life(s, events).Some?
    ensures var r := Life(s, events).value.requests;
            Orderly(Life(s, events).value) && id in r.resolved && r.resolved[id] == s.requests.resolved[id]
  {
    hide Orderly, Happen, PanicsOn;
    if events != [] {
      var before := Life(s, events[..|events| - 1]).value;
      LifeKeepsResolved(s, events[..|events| - 1], id);
      HappenOrderly(before, events[|events| - 1]);
      ResolvedStays(before, events[|events| - 1], id);
    }
  }

  lemma LateAnswer(s: Session, id: string, answer: Answer, fits: (PendingInteraction, Answer) -> bool)
    requires Orderly(s) && id in s.requests.resolved
    ensures !FindsNone(s, id)
    ensures AnswerInteraction(s, id, answer, fits) == (s, NotPending(Some(s.requests.resolved[id])))
  {
    hide InteractionName, Owed, Sound, ResolvePending;
  }

  /** An answer is accepted exactly when it is of the open request and fits it;
      the agent then gets one response, and the request is resolved. */
  lemma AcceptedOnce(s: Session, interaction: string, answer: Answer, fits: (PendingInteraction, Answer) -> bool)
    requires Orderly(s)
    ensures !FindsNone(s, interaction)
    ensures var (after, outcome) := AnswerInteraction(s, interaction, answer, fits);
            var open := s.requests.open;
            && (outcome == Accepted <==>
                  open.Some? && open.value.interaction == interaction && fits(s.projection.snapshot.pending.value, answer))
            && (if outcome == Accepted
                then && after.requests.responses == s.requests.responses + [(open.value.rpcId, Answered)]
                     && after.requests.open.None? && after.projection.snapshot.pending.None?
                     && after.requests.resolved == s.requests.resolved[interaction := Answered]
                else after == s)
  {
    hide InteractionName, Owed, Sound, ResolvePending;
    if s.requests.open.Some? && s.requests.open.value.interaction == interaction {
      ResolveCloses(s.projection, interaction, Answered, Some(answer));
    }
  }

  lemma ResolveCloses(p: Projection, id: string, state: InteractionState, answer: Option<Answer>)
    requires p.snapshot.pending.Some? && p.snapshot.pending.value.id == id && state != InteractionState.Pending
    ensures ResolvePending(p, id, state, answer).snapshot.pending.None?
  {
    hide Upsert, InteractionRecord, StatusOf;
    var pending := p.snapshot.pending.value.(state := state);
    var q := Emit(p, PendingChange(pending));
    UpsertParts(q, InteractionRecord(p, pending, state, answer));
  }

  // ----- Pending without an open request

  lemma CloseLeaves(p: Projection, state: InteractionState)
    requires state != InteractionState.Pending
    ensures ClosePending(p, state).snapshot.pending.None?
  {
    hide ResolvePending;
    match p.snapshot.pending
    case Some(pending) => ResolveCloses(p, pending.id, state, None);
    case None =>
  }

  /** The end of a prompt closes the request, and the pending interaction with
      it exactly when the turn is the current one. */
  lemma PromptMayLeavePending(s: Session, turnId: string, reason: StopReason, error: Option<string>)
    requires s.projection.snapshot.pending.Some?
    ensures var after := EndPrompt(s, turnId, reason, error);
            && after.requests.open.None?
            && (after.projection.snapshot.pending.None? <==> IsCurrent(s.projection, turnId))
  {
    hide FinishTurn, IsCurrent;
    FinishLeaves(s.projection, turnId, reason, error);
  }

  lemma FinishLeaves(p: Projection, turnId: string, reason: StopReason, error: Option<string>)
    ensures var q := FinishTurn(p, turnId, reason, error);
            if IsCurrent(p, turnId) then q.snapshot.pending.None? else q == p
  {
    hide ClosePending, Upsert, OutcomeItem, StatusOf, PutError;
    CloseLeaves(p, PendingOutcome(reason));
    var q := ClosePending(p, PendingOutcome(reason)).(open := None);
    ErrorLeaves(q, turnId, error);
    UpsertParts(PutError(q, turnId, error), OutcomeItem(turnId, reason));
  }

  lemma ErrorLeaves(p: Projection, turnId: string, error: Option<string>)
    ensures PutError(p, turnId, error).snapshot.pending == p.snapshot.pending
  {
    hide Upsert, ExcerptOf, SetDetail, TextItem, Decimal;
    match error
    case Some(message) =>
      var (q, id) := NextLocalId(p, turnId, "error");
      var block := ExcerptOf(message, q.retention.itemDetail);
      UpsertParts(SetDetail(q, id, Blocks([block], BlockSize(block))).0, TextItem(q, id, ErrorItem, block));
      SetDetailLeaves(q, id, Blocks([block], BlockSize(block)));
    case None =>
  }

  lemma SetDetailLeaves(p: Projection, id: string, detail: Detail)
    ensures SetDetail(p, id, detail).0.snapshot == p.snapshot
  {
  }

  /** The end of a session closes its request, and the pending interaction with
      it exactly when none is left: unless a turn is being replayed. */
  lemma EndMayLeavePending(s: Session)
    requires Orderly(s) && s.projection.snapshot.pending.Some?
    ensures var after := EndSession(s);
            && after.requests.open.None?
            && (after.projection.snapshot.pending.None? <==> TurnActive(s.projection) || CurrentTurn(s.projection).None?)
  {
    hide Orderly, FinishTurn, ClosePending;
    var p := s.projection;
    CloseLeaves(p, Expired);
    ActiveIsNamed(s);
    if CurrentTurn(p).Some? { FinishLeaves(p, CurrentTurn(p).value, TurnInterrupted, None); }
  }

  /** An active turn was begun, so it has an id. */
  lemma ActiveIsNamed(s: Session)
    requires Orderly(s)
    ensures TurnActive(s.projection) ==> s.projection.snapshot.turn.turnId.Some?
  {
    hide OpenIsPending, Named, Owed, IsTurnLog, SnapshotAt, Accounted;
    var p := s.projection;
    if TurnActive(p) { var k := ActiveWasBegun(p.base, p.sent, |p.sent|); }
  }

  /** The turn and the replay are left alone. */
  predicate SameTurn(p: Projection, q: Projection) {
    q.snapshot.turn == p.snapshot.turn && q.replay == p.replay
  }

  lemma PutUserLeaves(p: Projection, id: string, user: Option<BlockStart>, block: DetailBlock, segments: seq<Segment>)
    requires CanShow(user, block)
    ensures SameTurn(p, PutUserMessage(p, id, user, block, segments))
  {
    hide ShowHeld, SetDetail, TextItem, Upsert, BlockSize, UserSize, Shown, ShowingOf;
    var q := ShowHeld(p, Some(id));
    ShownParts(p, Some(id));
    var detail := Blocks([block], BlockSize(block) + UserSize(user));
    SetDetailParts(q.(users := q.users[id := user]), id, detail);
    var r := SetDetail(q.(users := q.users[id := user]), id, detail).0;
    UpsertParts(r.(held := None), TextItem(q, id, UserMessage(segments), Shown(user, block).0));
  }

  lemma SetDetailParts(p: Projection, id: string, detail: Detail)
    ensures SetDetail(p, id, detail).0.snapshot == p.snapshot && SetDetail(p, id, detail).0.replay == p.replay
  {
  }

  /** The first user message of a replay begins a turn. */
  lemma ReplayBegins(p: Projection, id: string, text: string)
    requires p.replay == Some(ReplayState(0, None)) && p.open.None? && !TurnActive(p)
    requires id !in p.details && id !in p.users
    ensures var message := Message(User, Some(id), text, [], []);
            && !Panics(p, message) && !TurnActive(Step(p, message)) && CurrentTurn(Step(p, message)) == Some(ReplayName(1))
  {
    hide PutUserMessage, Extend, CanShow, ReplayName;
    var limit := p.retention.itemDetail;
    var q := Addressed(p, User, Some(id)).0;
    ExtendHolds(None, TextBlock(""), text, limit);
    var (user, block) := Extend(None, TextBlock(""), text, limit);
    PutUserLeaves(q.(users := q.users - {id}), id, user, block, []);
  }

  lemma ThreeEvents(s: Session, a: Event, b: Event, c: Event)
    requires !PanicsOn(s, a) && !PanicsOn(Happen(s, a), b) && !PanicsOn(Happen(Happen(s, a), b), c)
    ensures Life(s, [a, b, c]) == Some(Happen(Happen(Happen(s, a), b), c))
  {
    hide Happen, PanicsOn;
    assert [a, b, c][..2] == [a, b] && [a, b][..1] == [a] && [a][..0] == [];
    assert Life(s, [a]) == Some(Happen(s, a));
    assert Life(s, [a, b]) == Some(Happen(Happen(s, a), b));
  }

  /** The pending interaction may outlive its request: it does when a session
      that is asked something after a replayed user message ends. */
  lemma PendingOutlives(connection: Connection, history: HistoryState, writer: WriterState, retention: Retention,
                        text: string, request: Request)
    requires request.toolCall.None?
    ensures var events := [Does(Message(User, Some("m"), text, [], [])), Asks(request), SessionEnds];
            var s := Life(NewSession(NewProjection(connection, history, true, writer, retention)), events);
            && s.Some? && s.value.requests.open.None?
            && s.value.projection.snapshot.pending == Some(PendingOf(request, InteractionName(1)))
            && s.value.requests.resolved == map[InteractionName(1) := Expired]
  {
    hide *;
    var p := NewProjection(connection, history, true, writer, retention);
    var said := Message(User, Some("m"), text, [], []);
    NewReplay(connection, history, writer, retention);
    NewIsSound(connection, history, true, writer, retention);
    ReplayBegins(p, "m", text);
    var s := NewSession(p);
    DoesStep(s, said);
    StepSound(p, said);
    var told := s.(projection := Step(p, said));
    AskedOnce(told, request);
    var asked := OpenInteraction(told, request);
    EndsNoTurn(asked, ReplayName(1));
    AskIs(told, request);
    EndIs(asked);
    ThreeEvents(s, Does(said), Asks(request), SessionEnds);
  }

  lemma NewReplay(connection: Connection, history: HistoryState, writer: WriterState, retention: Retention)
    ensures var p := NewProjection(connection, history, true, writer, retention);
            && p.replay == Some(ReplayState(0, None)) && p.open.None? && !TurnActive(p) && p.details == map[] && p.users == map[]
            && NewSession(p) == Session(Requests(None, map[], 0, [], []), p)
  {
  }

  lemma DoesStep(s: Session, action: Action)
    requires action.Message? && !Panics(s.projection, action)
    ensures !PanicsOn(s, Does(action)) && Happen(s, Does(action)) == s.(projection := Step(s.projection, action))
  {
    hide Panics, Step;
  }

  lemma AskIs(s: Session, request: Request)
    ensures !PanicsOn(s, Asks(request)) && Happen(s, Asks(request)) == OpenInteraction(s, request)
  {
    hide OpenInteraction;
  }

  lemma EndIs(s: Session)
    ensures !PanicsOn(s, SessionEnds) && Happen(s, SessionEnds) == EndSession(s)
  {
    hide EndSession;
  }

  /** The first request of a session, without a tool call. */
  lemma AskedOnce(s: Session, request: Request)
    requires s.requests == Requests(None, map[], 0, [], []) && Sound(s.projection) && request.toolCall.None?
    ensures var q := OpenInteraction(s, request);
            && TurnActive(q.projection) == TurnActive(s.projection) && CurrentTurn(q.projection) == CurrentTurn(s.projection)
            && q.requests.resolved == map[]
            && q.requests.open == Some(OpenRequest(InteractionName(1), request.rpcId, request.kind))
            && q.projection.snapshot.pending == Some(PendingOf(request, InteractionName(1)))
  {
    hide Sound, InteractionName, StatusOf;
    var pending := PendingOf(request, InteractionName(1));
    PendShows(s.projection, pending);
  }

  /** The end of a session with a turn only replayed closes its request alone. */
  lemma EndsNoTurn(s: Session, turnId: string)
    requires !TurnActive(s.projection) && CurrentTurn(s.projection) == Some(turnId) && s.requests.open.Some?
    ensures var q := EndSession(s);
            && q.requests.open.None? && q.projection.snapshot.pending == s.projection.snapshot.pending
            && q.requests.resolved == s.requests.resolved[s.requests.open.value.interaction := Expired]
  {
  }

  // ----- What each event does

  /** A request that finds none open becomes the pending interaction as asked,
      under a new name, and is not answered yet; another is answered `cancel`
      at once and changes nothing else. */
  lemma AskTakesOne(s: Session, request: Request)
    requires Orderly(s)
    ensures var after := OpenInteraction(s, request);
            var r, q := s.requests, after.requests;
            && q.asked == r.asked + [request.rpcId] && q.resolved == r.resolved
            && if r.open.Some?
               then q.open == r.open && q.responses == r.responses + [(request.rpcId, Cancelled)]
                    && after.projection == s.projection
               else
                 var name := InteractionName(r.next + 1);
                 && q.open == Some(OpenRequest(name, request.rpcId, request.kind)) && q.responses == r.responses
                 && name !in q.resolved
                 && after.projection.snapshot.pending.Some?
                 && var p := after.projection.snapshot.pending.value;
                    && p.id == name && p.kind == request.kind && p.title == request.title && p.options == request.options
                    && p.state == InteractionState.Pending
                    && (p.toolCallId.Some? <==> request.toolCall.Some?)
                    && (request.toolCall.Some? ==> p.toolCallId == Some(request.toolCall.value.id))
  {
    hide Sound, InteractionName, UpsertTool, SetPending, Owed;
    var r := s.requests;
    if r.open.None? {
      NextIsNew(r);
      var p := match request.toolCall case Some(call) => UpsertTool(s.projection, call) case None => s.projection;
      if request.toolCall.Some? { ToolLeavesPending(s.projection, request.toolCall.value); }
      PendShows(p, PendingOf(request, InteractionName(r.next + 1)));
    }
  }

  /** Asked in an active turn, the session then waits for what was asked; once an
      answer is accepted, it runs on. */
  lemma StatusWaits(s: Session, request: Request)
    requires Orderly(s) && s.requests.open.None?
    ensures var before, after := s.projection.snapshot.turn, OpenInteraction(s, request).projection.snapshot.turn;
            && after.phase == before.phase && after.turnId == before.turnId && after.lastOutcome == before.lastOutcome
            && after.status == if before.phase == NoTurn then Idle(before.lastOutcome) else RequiresAction(request.kind)
  {
    hide Steady, InteractionName, UpsertTool, Owed, Named, StatusOf;
    var p := match request.toolCall case Some(call) => UpsertTool(s.projection, call) case None => s.projection;
    if request.toolCall.Some? {
      ToolLeavesPending(s.projection, request.toolCall.value);
      ToolSteady(s.projection, request.toolCall.value);
    }
    var pending := PendingOf(request, InteractionName(s.requests.next + 1));
    PendShows(p, pending);
    PendLeavesTurn(p, pending);
  }

  lemma PendLeavesTurn(p: Projection, pending: PendingInteraction)
    ensures var before, after := p.snapshot.turn, SetPending(p, pending).snapshot.turn;
            after.phase == before.phase && after.turnId == before.turnId && after.lastOutcome == before.lastOutcome
  {
    hide StatusOf;
  }

  lemma StatusRunsOn(s: Session, interaction: string, answer: Answer, fits: (PendingInteraction, Answer) -> bool)
    requires Orderly(s)
    ensures !FindsNone(s, interaction)
    ensures var (after, outcome) := AnswerInteraction(s, interaction, answer, fits);
            var turn := s.projection.snapshot.turn;
            outcome == Accepted ==>
              after.projection.snapshot.turn == turn.(status := if turn.phase == NoTurn then Idle(turn.lastOutcome) else Running)
  {
    hide InteractionName, Owed, Steady, ResolvePending;
    if s.requests.open.Some? && s.requests.open.value.interaction == interaction {
      ResolveCloses(s.projection, interaction, Answered, Some(answer));
      ResolveKeepsSound(s.projection, interaction, Answered, Some(answer));
      ResolveLeavesTurn(s.projection, interaction, Answered, Some(answer));
    }
  }

  lemma ResolveLeavesTurn(p: Projection, id: string, state: InteractionState, answer: Option<Answer>)
    ensures var before, after := p.snapshot.turn, ResolvePending(p, id, state, answer).snapshot.turn;
            after.phase == before.phase && after.turnId == before.turnId && after.lastOutcome == before.lastOutcome
  {
    hide Upsert, InteractionRecord, StatusOf;
    if p.snapshot.pending.Some? && p.snapshot.pending.value.id == id {
      var pending := p.snapshot.pending.value.(state := state);
      UpsertParts(Emit(p, PendingChange(pending)), InteractionRecord(p, pending, state, answer));
    }
  }

  /** A cancel of an active turn answers the open request `cancel`, closes it
      and leaves the turn cancelling; without a turn it does nothing. */
  lemma CancelAnswers(s: Session)
    requires Orderly(s)
    ensures var after := CancelSession(s);
            var r, q := s.requests, after.requests;
            if !TurnActive(s.projection) then after == s
            else
              && after.projection.snapshot.turn.phase == Cancelling && q.open.None?
              && match r.open
                 case Some(request) =>
                   && q.responses == r.responses + [(request.rpcId, Cancelled)]
                   && q.resolved == r.resolved[request.interaction := Cancelled]
                   && after.projection.snapshot.pending.None?
                 case None => q == r
  {
    hide Sound, InteractionName, ResolvePending, Owed, StatusOf;
    CancellingLeavesPending(s.projection);
    if TurnActive(s.projection) && s.requests.open.Some? {
      var p := CancellingTurn(s.projection);
      ResolveCloses(p, s.requests.open.value.interaction, Cancelled, None);
      ResolveSound(p, s.requests.open.value.interaction, Cancelled, None);
    }
  }

  /** The open request, if there is one, is resolved with `state`, and no
      response is sent. */
  ghost predicate ClosedSilently(before: Requests, after: Requests, state: InteractionState) {
    && after.open.None? && after.responses == before.responses
    && after.resolved == match before.open
                         case Some(request) => before.resolved[request.interaction := state]
                         case None => before.resolved
  }

  /** The end of a prompt or of a session closes the open request with what its
      end makes of it, and answers nothing. */
  lemma EndsSilently(s: Session, turnId: string, reason: StopReason, error: Option<string>)
    requires Orderly(s)
    ensures ClosedSilently(s.requests, EndPrompt(s, turnId, reason, error).requests,
                           if reason == TurnCancelled then Cancelled else Expired)
    ensures ClosedSilently(s.requests, EndSession(s).requests, Expired)
  {
    hide Orderly, FinishTurn, InterruptTurn, SetWriter;
  }
}
