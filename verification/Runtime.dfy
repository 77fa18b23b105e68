/** The runtime's sessions as objects: the steps taken under a session's locks,
    and the bound on the detail of the whole process. `runtime.rs`. */
module Runtime {
  import opened Text
  import opened Activity
  import opened Projection
  import opened SessionRuns
  import opened Interactions
  import opened Accounting
  import opened DetailBound
  import opened SessionProjections

  // ----- A session's requests

  class AgentSession {
    var open: Option<OpenRequest>
    var resolved: map<string, InteractionState>
    var nextInteraction: nat
    ghost var asked: seq<string>
    ghost var responses: seq<(string, InteractionState)>
    const projection: SessionProjection

    ghost function State(): Session
      reads this, projection
    {
      Session(Requests(open, resolved, nextInteraction, asked, responses), projection.State())
    }

    ghost predicate Valid()
      reads this, projection, projection.process
    {
      projection.Valid() && Orderly(State())
    }

    constructor (projection: SessionProjection)
      requires projection.Valid() && Sound(projection.State())
      ensures this.projection == projection && Valid() && State() == NewSession(projection.State())
    {
      hide Sound;
      this.projection := projection;
      open, resolved, nextInteraction, asked, responses := None, map[], 0, [], [];
    }

    /** `Interactions::close` */
    method CloseOpen(state: InteractionState) returns (request: Option<OpenRequest>)
      modifies this
      ensures State() == old(State()).(requests := Close(old(State()).requests, state)) && request == old(open)
    {
      request := open;
      if open.Some? {
        resolved := resolved[open.value.interaction := state];
        open := None;
      }
    }

    /** One response to the agent's request. */
    method RespondTo(rpcId: string, state: InteractionState)
      modifies this
      ensures State() == old(State()).(requests := Respond(old(State()).requests, rpcId, state))
    {
      responses := responses + [(rpcId, state)];
    }

    /** `open_interaction` */
    method Ask(request: Request)
      requires Valid()
      modifies this, projection, projection.process
      ensures State() == OpenInteraction(old(State()), request) && Valid()
      ensures projection.Others() == old(projection.Others())
    {
      hide Orderly, Accounted, UpsertTool, SetPending, InteractionName;
      AskOrderly(State(), request);
      asked := asked + [request.rpcId];
      if open.Some? {
        RespondTo(request.rpcId, Cancelled);
        return;
      }
      nextInteraction := nextInteraction + 1;
      var interaction := InteractionName(nextInteraction);
      open := Some(OpenRequest(interaction, request.rpcId, request.kind));
      if request.toolCall.Some? { projection.MergeTool(request.toolCall.value); }
      projection.ShowRequest(PendingOf(request, interaction));
    }

    /** `AgentRuntime::answer`: the pending interaction it expects is there */
    method Answer(interaction: string, answer: Answer, fits: (PendingInteraction, Answer) -> bool)
        returns (outcome: AnswerOutcome)
      requires Valid()
      modifies this, projection, projection.process
      ensures !FindsNone(old(State()), interaction)
      ensures (State(), outcome) == AnswerInteraction(old(State()), interaction, answer, fits) && Valid()
      ensures projection.Others() == old(projection.Others())
    {
      hide Orderly, Accounted, ResolvePending;
      AnswerOrderly(State(), interaction, answer, fits);
      if open.None? || open.value.interaction != interaction {
        return NotPending(if interaction in resolved then Some(resolved[interaction]) else None);
      }
      if !fits(projection.snapshot.pending.value, answer) { return InvalidAnswer; }
      var request := CloseOpen(Answered);
      RespondTo(request.value.rpcId, Answered);
      projection.ResolveRequest(request.value.interaction, Answered, Some(answer));
      outcome := Accepted;
    }

    /** `Session::cancel` */
    method CancelTurn()
      requires Valid()
      modifies this, projection, projection.process
      ensures State() == CancelSession(old(State())) && Valid()
      ensures projection.Others() == old(projection.Others())
    {
      hide Orderly, Accounted, ResolvePending, CancellingTurn;
      CancelOrderly(State());
      if projection.snapshot.turn.phase == NoTurn { return; }
      projection.RequestCancel();
      var request := CloseOpen(Cancelled);
      if request.Some? {
        RespondTo(request.value.rpcId, Cancelled);
        projection.ResolveRequest(request.value.interaction, Cancelled, None);
      }
    }

    /** The end of a prompt */
    method FinishPrompt(turnId: string, reason: StopReason, error: Option<string>)
      requires Valid()
      modifies this, projection, projection.process
      ensures State() == EndPrompt(old(State()), turnId, reason, error) && Valid()
      ensures projection.Others() == old(projection.Others())
    {
      hide Orderly, Accounted, FinishTurn;
      EndsOrderly(State(), turnId, reason, error);
      var _ := CloseOpen(PendingOutcome(reason));
      projection.CloseTurn(turnId, reason, error);
    }

    /** `Session::end` */
    method End()
      requires Valid()
      modifies this, projection, projection.process
      ensures State() == EndSession(old(State())) && Valid()
      ensures projection.Others() == old(projection.Others())
    {
      hide Orderly, Accounted, InterruptTurn, SetWriter;
      EndsOrderly(State(), "", EndTurn, None);
      var _ := CloseOpen(Expired);
      projection.InterruptSession();
      projection.ChangeWriter(NoWriter);
    }
  }

  // ----- The detail bound of the process

  ghost function Projections(sessions: seq<Routed<SessionProjection>>): set<SessionProjection> {
    set r | r in sessions :: r.session
  }

  /** The sessions by their state. */
  ghost function States(sessions: seq<Routed<SessionProjection>>): (states: seq<Routed<Projection>>)
    reads Projections(sessions)
    ensures |states| == |sessions|
    ensures forall i :: 0 <= i < |sessions| ==>
              states[i] == Routed(sessions[i].openedAt, sessions[i].session.State())
  {
    if sessions == [] then []
    else
      var last := sessions[|sessions| - 1];
      assert last in sessions;
      assert forall r :: r in sessions[..|sessions| - 1] ==> r in sessions;
      States(sessions[..|sessions| - 1]) + [Routed(last.openedAt, last.session.State())]
  }

  ghost predicate Distinct(sessions: seq<Routed<SessionProjection>>) {
    forall i, j :: 0 <= i < j < |sessions| ==> sessions[i].session != sessions[j].session
  }

  /** Each session is in the list once, counts on `process`, and the count is
      that of these sessions and others'. */
  ghost predicate Counted(sessions: seq<Routed<SessionProjection>>, process: ByteCounter, others: nat)
    reads process, Projections(sessions)
  {
    && (forall i :: 0 <= i < |sessions| ==> sessions[i].session.process == process)
    && Distinct(sessions)
    && AllKept(States(sessions))
    && process.bytes == SumDetail(States(sessions)) + others
  }

  /** Each session of the list counts rightly on the process, whatever the
      others did to the count. */
  lemma CountedIsValid(sessions: seq<Routed<SessionProjection>>, i: nat, process: ByteCounter, others: nat)
    requires i < |sessions| && Counted(sessions, process, others)
    ensures sessions[i].session.Valid()
  {
    hide Accounted, UniqueIds, SumDetail, Distinct;
    ShareOfSum(States(sessions), i);
    assert Kept(States(sessions)[i].session);
  }

  /** An operation on one session that keeps what the process counts of others,
      as each does, leaves the sessions counted: those that share the count are
      as valid as before. */
  twostate lemma ActingKeepsCounted(sessions: seq<Routed<SessionProjection>>, i: nat, process: ByteCounter, others: nat)
    requires i < |sessions| && old(Counted(sessions, process, others))
    requires sessions[i].session.Others() == old(sessions[i].session.Others()) && Kept(sessions[i].session.State())
    requires forall j :: 0 <= j < |sessions| && j != i ==> sessions[j].session.State() == old(sessions[j].session.State())
    ensures Counted(sessions, process, others)
    ensures forall j :: 0 <= j < |sessions| ==> sessions[j].session.Valid()
  {
    hide Accounted, UniqueIds, SumDetail;
    var before := old(States(sessions));
    var after := before[i := Routed(sessions[i].openedAt, sessions[i].session.State())];
    assert States(sessions) == after;
    SumReplacedAt(before, i, after[i]);
    forall j | 0 <= j < |after| ensures Kept(after[j].session) {
      assert Kept(before[j].session);
    }
    forall j | 0 <= j < |sessions| ensures sessions[j].session.Valid() {
      CountedIsValid(sessions, j, process, others);
    }
  }

  /** A new session, which holds nothing yet, is counted with the others. */
  lemma OpeningKeepsCounted(sessions: seq<Routed<SessionProjection>>, newest: Routed<SessionProjection>, process: ByteCounter,
                            others: nat)
    requires Counted(sessions, process, others)
    requires newest.session.process == process && newest.session.detailBytes == 0 && Kept(newest.session.State())
    requires forall j :: 0 <= j < |sessions| ==> sessions[j].session != newest.session
    ensures Counted(sessions + [newest], process, others)
  {
    hide Accounted, UniqueIds, SumDetail;
    var more := sessions + [newest];
    assert more[..|more| - 1] == sessions;
    SumOfMore(States(sessions), Routed(newest.openedAt, newest.session.State()));
    forall j | 0 <= j < |more| ensures Kept(States(more)[j].session) {
      if j < |sessions| { assert Kept(States(sessions)[j].session); }
    }
  }

  /** Once the last session's share is taken off, the rest are counted. */
  twostate lemma DroppingKeepsCounted(sessions: seq<Routed<SessionProjection>>, process: ByteCounter, others: nat)
    requires sessions != [] && old(Counted(sessions, process, others))
    requires process.bytes == old(process.bytes) - old(sessions[|sessions| - 1].session.detailBytes)
    requires forall j :: 0 <= j < |sessions| - 1 ==> sessions[j].session.State() == old(sessions[j].session.State())
    ensures Counted(sessions[..|sessions| - 1], process, others)
  {
    hide Accounted, UniqueIds, SumDetail;
    var n := |sessions| - 1;
    var before := old(States(sessions));
    assert States(sessions[..n]) == before[..n];
    assert before == before[..n] + [before[n]];
    SumOfMore(before[..n], before[n]);
    forall j | 0 <= j < n ensures Kept(before[..n][j].session) {
      assert Kept(before[j].session);
    }
  }

  lemma {:induction false} PlacedStates(r: Routed<SessionProjection>, sessions: seq<Routed<SessionProjection>>)
    ensures States(Placed(r, sessions)) == Placed(Routed(r.openedAt, r.session.State()), States(sessions))
  {
    if sessions == [] || sessions[|sessions| - 1].openedAt <= r.openedAt {
    } else {
      PlacedStates(r, sessions[..|sessions| - 1]);
    }
  }

  /** Sorting the sessions sorts their states. */
  lemma {:induction false} SortedStates(sessions: seq<Routed<SessionProjection>>)
    ensures States(ByOpening(sessions)) == ByOpening(States(sessions))
  {
    if sessions != [] {
      var n := |sessions| - 1;
      SortedStates(sessions[..n]);
      PlacedStates(sessions[n], ByOpening(sessions[..n]));
    }
  }

  lemma {:induction false} PlacedDistinct(r: Routed<SessionProjection>, sessions: seq<Routed<SessionProjection>>)
    requires Distinct(sessions) && forall s :: s in sessions ==> s.session != r.session
    ensures Distinct(Placed(r, sessions))
  {
    if sessions != [] && sessions[|sessions| - 1].openedAt > r.openedAt {
      var n := |sessions| - 1;
      PlacedDistinct(r, sessions[..n]);
      var placed := Placed(r, sessions[..n]);
      forall i | 0 <= i < |placed| ensures placed[i].session != sessions[n].session {
        InPlaced(r, sessions[..n], placed[i]);
      }
    }
  }

  lemma {:induction false} SortedDistinct(sessions: seq<Routed<SessionProjection>>)
    requires Distinct(sessions)
    ensures Distinct(ByOpening(sessions))
    ensures forall s :: s in ByOpening(sessions) <==> s in sessions
  {
    OpeningSorts(sessions);
    forall s ensures s in ByOpening(sessions) <==> s in sessions {
      assert s in multiset(ByOpening(sessions)) <==> s in multiset(sessions);
    }
    if sessions != [] {
      var n := |sessions| - 1;
      SortedDistinct(sessions[..n]);
      PlacedDistinct(sessions[n], ByOpening(sessions[..n]));
    }
  }

  lemma SameSessions(a: seq<Routed<SessionProjection>>, b: seq<Routed<SessionProjection>>)
    requires forall s :: s in a <==> s in b
    ensures Projections(a) == Projections(b)
  {
  }

  lemma SortedProcess(a: seq<Routed<SessionProjection>>, b: seq<Routed<SessionProjection>>, process: ByteCounter)
    requires forall s :: s in a <==> s in b
    requires forall i :: 0 <= i < |b| ==> b[i].session.process == process
    ensures forall i :: 0 <= i < |a| ==> a[i].session.process == process
  {
    forall i | 0 <= i < |a| ensures a[i].session.process == process {
      assert a[i] in a && a[i] in b;
    }
  }

  lemma SortedCounted(sessions: seq<Routed<SessionProjection>>, process: ByteCounter, others: nat)
    requires Counted(sessions, process, others)
    ensures Counted(ByOpening(sessions), process, others) && Projections(ByOpening(sessions)) == Projections(sessions)
  {
    hide AllKept, Distinct, SumDetail, Projections, States, ByOpening;
    SortedDistinct(sessions);
    SameSessions(ByOpening(sessions), sessions);
    SortedProcess(ByOpening(sessions), sessions, process);
    SortedStates(sessions);
    SortedKept(States(sessions));
    OpeningSum(States(sessions));
  }

  lemma {:induction false} ShareOfSum(states: seq<Routed<Projection>>, i: nat)
    requires AllKept(states) && i < |states|
    ensures 0 <= states[i].session.detailBytes <= SumDetail(states)
  {
    hide UniqueIds, DetailTotal, SumCompact;
    assert Kept(states[0].session);
    if |states| > 1 {
      assert forall j :: 0 <= j < |states| - 1 ==> states[1..][j] == states[j + 1];
      ShareOfSum(states[1..], if i > 0 then i - 1 else 0);
    }
  }

  lemma EnforceOnward(states: seq<Routed<Projection>>, i: nat, total: int, bound: nat)
    requires i < |states| && total > bound
    ensures var (q, freed) := ReleaseDetail(states[i].session, total - bound);
            var (rest, left) := EnforceEach(states[i + 1..], total - freed, bound);
            EnforceEach(states[i..], total, bound) == ([states[i].(session := q)] + rest, left)
  {
    hide ReleaseDetail;
    assert states[i..][1..] == states[i + 1..];
  }

  lemma EnforceStops(states: seq<Routed<Projection>>, total: int, bound: nat)
    requires states == [] || total <= bound
    ensures EnforceEach(states, total, bound) == (states, total)
  {
  }

  /** One session's turn: its detail is released, the others stay. */
  method FreeSession(sessions: seq<Routed<SessionProjection>>, i: nat, process: ByteCounter, need: nat, ghost others: nat)
      returns (freed: nat)
    requires i < |sessions| && Counted(sessions, process, others)
    modifies process, Projections(sessions)
    ensures var (q, f) := ReleaseDetail(old(States(sessions))[i].session, need);
            States(sessions) == old(States(sessions))[i := Routed(sessions[i].openedAt, q)] && freed == f
    ensures Counted(sessions, process, others) && process.bytes == old(process.bytes) - freed
  {
    hide ReleaseDetail, Accounted, UniqueIds, SumDetail;
    ghost var before := States(sessions);
    var session := sessions[i].session;
    assert sessions[i] in sessions;
    assert Kept(before[i].session);
    ShareOfSum(before, i);
    ReleaseDetailFrees(session.State(), need);
    freed := session.FreeDetail(need);
    ghost var after := before[i := Routed(sessions[i].openedAt, session.State())];
    forall j | 0 <= j < |sessions| && j != i ensures sessions[j].session.State() == before[j].session {
      assert sessions[j] in sessions;
    }
    assert States(sessions) == after;
    SumReplacedAt(before, i, after[i]);
    forall j | 0 <= j < |after| ensures Kept(after[j].session) {
      assert Kept(before[j].session);
    }
  }

  /** How far enforcing came: the first `i` sessions are done. */
  ghost predicate Enforcing(before: seq<Routed<Projection>>, total: int, now: seq<Routed<Projection>>, i: nat, left: int,
                            bound: nat) {
    && i <= |now| == |before| && now[i..] == before[i..]
    && EnforceEach(before, total, bound)
       == (now[..i] + EnforceEach(before[i..], left, bound).0, EnforceEach(before[i..], left, bound).1)
  }

  lemma StartEnforcing(before: seq<Routed<Projection>>, total: int, bound: nat)
    ensures Enforcing(before, total, before, 0, total, bound)
  {
    hide EnforceEach;
    assert before[0..] == before && before[..0] + EnforceEach(before, total, bound).0 == EnforceEach(before, total, bound).0;
  }

  lemma GoOnEnforcing(before: seq<Routed<Projection>>, total: int, now: seq<Routed<Projection>>, i: nat, left: int, bound: nat)
    requires Enforcing(before, total, now, i, left, bound) && i < |before| && left > bound
    ensures var (q, freed) := ReleaseDetail(now[i].session, left - bound);
            Enforcing(before, total, now[i := Routed(now[i].openedAt, q)], i + 1, left - freed, bound)
  {
    hide ReleaseDetail, EnforceEach;
    assert now[i..][0] == before[i..][0];
    EnforceOnward(before, i, left, bound);
    var (q, freed) := ReleaseDetail(now[i].session, left - bound);
    var next := now[i := Routed(now[i].openedAt, q)];
    assert next[i + 1..] == now[i..][1..] && before[i + 1..] == before[i..][1..];
    var rest := EnforceEach(before[i + 1..], left - freed, bound).0;
    assert next[..i + 1] + rest == now[..i] + ([before[i].(session := q)] + rest);
  }

  lemma EndEnforcing(before: seq<Routed<Projection>>, total: int, now: seq<Routed<Projection>>, i: nat, left: int, bound: nat)
    requires Enforcing(before, total, now, i, left, bound) && (i == |before| || left <= bound)
    ensures EnforceEach(before, total, bound) == (now, left)
  {
    hide EnforceEach;
    EnforceStops(before[i..], left, bound);
    assert now == now[..i] + now[i..];
  }

  lemma BoundIs(states: seq<Routed<Projection>>, total: int, bound: nat)
    ensures EnforceDetailBound(states, total, bound) == EnforceEach(ByOpening(states), total, bound)
  {
  }

  /** `enforce_detail_bound`: the sessions end in the state that releasing the
      least recently opened first leaves them in, and the count with them. */
  method EnforceProcessBound(sessions: seq<Routed<SessionProjection>>, process: ByteCounter, bound: nat, ghost others: nat)
    requires Counted(sessions, process, others)
    modifies process, Projections(sessions)
    ensures (States(ByOpening(sessions)), process.bytes)
            == EnforceDetailBound(old(States(sessions)), old(process.bytes), bound)
    ensures Counted(ByOpening(sessions), process, others)
  {
    hide *;
    var sorted := ByOpening(sessions);
    BoundIs(States(sessions), process.bytes, bound);
    SortedStates(sessions);
    SortedCounted(sessions, process, others);
    ghost var before, total := States(sorted), process.bytes;
    StartEnforcing(before, total, bound);
    var i := 0;
    while i < |sorted| && process.bytes > bound
      invariant 0 <= i <= |sorted| && Counted(sorted, process, others)
      invariant Enforcing(before, total, States(sorted), i, process.bytes, bound)
    {
      GoOnEnforcing(before, total, States(sorted), i, process.bytes, bound);
      var _ := FreeSession(sorted, i, process, process.bytes - bound, others);
      i := i + 1;
    }
    EndEnforcing(before, total, States(sorted), i, process.bytes, bound);
  }
}
