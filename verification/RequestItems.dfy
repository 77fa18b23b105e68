/** What a request, its answer and the end of a prompt or session leave in the
    timeline. `runtime.rs`. */
module RequestItems {
  import opened Text
  import opened DetailText
  import opened Activity
  import opened Projection
  import opened TurnRetention
  import opened ProjectionRuns
  import opened SessionRuns
  import opened Interactions
  import opened Timeline
  import opened ItemContents

  /** The tool call a permission is asked for is in the timeline when the request
      appears, merged into what was known of it. */
  lemma AskShowsTool(s: Session, request: Request, call: ToolUpdate) returns (item: ActivityItem)
    requires s.requests.open.None? && request.toolCall == Some(call)
    requires CurrentTurn(s.projection).Some? && Spared(s.projection, call.id)
    ensures item in OpenInteraction(s, request).projection.snapshot.items
    ensures Merges(item, KnownItem(s.projection, call.id), call, CurrentTurn(s.projection))
  {
    hide UpsertTool, CurrentTurn, Spared, Merges, KnownItem, StatusOf, InteractionName, PendingOf;
    item := ToolShows(s.projection, call);
  }

  /** An accepted answer is recorded, with the caption of what it chose. */
  lemma AnswerRecords(s: Session, interaction: string, answer: Answer, fits: (PendingInteraction, Answer) -> bool)
      returns (item: ActivityItem)
    requires Orderly(s) && CurrentTurn(s.projection).Some? && Spared(s.projection, interaction)
    requires !FindsNone(s, interaction) && AnswerInteraction(s, interaction, answer, fits).1 == Accepted
    ensures s.projection.snapshot.pending.Some?
    ensures item in AnswerInteraction(s, interaction, answer, fits).0.projection.snapshot.items
    ensures Records(item, s.projection.snapshot.pending.value, CurrentTurn(s.projection), Answered, Some(answer))
  {
    hide Named, Owed, Sound, ResolvePending, CurrentTurn, Spared, Records;
    item := ResolveRecords(s.projection, Answered, Some(answer));
  }

  /** The end of the prompt of the current turn leaves its outcome, and its error
      if it failed, and nothing pending or active. */
  lemma PromptEndShows(s: Session, turnId: string, reason: StopReason, error: Option<string>)
      returns (outcome: ActivityItem, failure: ActivityItem)
    requires IsCurrent(s.projection, turnId) && EndSpared(s.projection, turnId, error)
    ensures var q := EndPrompt(s, turnId, reason, error).projection.snapshot;
            && q.turn == TurnState(Some(turnId), NoTurn, Some(reason), Idle(Some(reason))) && q.pending.None?
            && outcome in q.items && outcome.turnId == Some(turnId)
            && outcome.kind == (if reason == TurnInterrupted then InterruptedItem else TurnOutcome(reason))
            && (error.Some? ==>
                  && failure in q.items && failure.kind == ErrorItem
                  && IsTextItem(failure, LocalId(s.projection, turnId, "error"), Some(turnId),
                                ExcerptOf(error.value, s.projection.retention.itemDetail)))
  {
    hide FinishTurn, IsCurrent, EndSpared, IsTextItem, LocalId, ExcerptOf;
    outcome, failure := FinishShows(s.projection, turnId, reason, error);
  }

  /** The ids of what the end of the turn records besides are not the request's,
      and no held message has that. */
  ghost predicate RequestSpared(p: Projection, turnId: string, error: Option<string>) {
    && p.snapshot.pending.Some? && Spared(p, p.snapshot.pending.value.id)
    && p.snapshot.pending.value.id != "outcome:" + turnId
    && (error.Some? ==> LocalId(p, turnId, "error") != p.snapshot.pending.value.id)
    && (p.held.Some? ==> p.held.value.id != p.snapshot.pending.value.id)
  }

  /** The request that was still pending is recorded as cancelled if the turn was,
      else as expired. */
  lemma PromptEndRecords(s: Session, turnId: string, reason: StopReason, error: Option<string>) returns (record: ActivityItem)
    requires IsCurrent(s.projection, turnId) && RequestSpared(s.projection, turnId, error)
    ensures record in EndPrompt(s, turnId, reason, error).projection.snapshot.items
    ensures Records(record, s.projection.snapshot.pending.value, Some(turnId),
                    if reason == TurnCancelled then Cancelled else Expired, None)
  {
    hide FinishTurn, Records, Spared, LocalId, InteractionRecord;
    var p, state := s.projection, if reason == TurnCancelled then Cancelled else Expired;
    record := FinishRecords(p, turnId, reason, error);
    ActiveTurn(p, turnId);
    RecordIsRight(p, p.snapshot.pending.value, state, None);
  }

  /** A cancel of an active turn records its open request as cancelled. */
  lemma CancelRecords(s: Session) returns (record: ActivityItem)
    requires Orderly(s) && TurnActive(s.projection) && s.requests.open.Some?
    requires CurrentTurn(s.projection).Some? && Spared(s.projection, s.requests.open.value.interaction)
    ensures s.projection.snapshot.pending.Some?
    ensures record in CancelSession(s).projection.snapshot.items
    ensures Records(record, s.projection.snapshot.pending.value, CurrentTurn(s.projection), Cancelled, None)
  {
    hide Named, Owed, Sound, ResolvePending, Spared, Records, StatusOf;
    var p := CancellingTurn(s.projection);
    CancellingSame(s.projection);
    SameItemsSpared(s.projection, p, s.requests.open.value.interaction);
    record := ResolveRecords(p, Cancelled, None);
  }

  lemma CancellingSame(p: Projection)
    ensures var q := CancellingTurn(p);
            && q.snapshot.items == p.snapshot.items && q.snapshot.pending == p.snapshot.pending && CurrentTurn(q) == CurrentTurn(p)
  {
    hide StatusOf;
  }

  /** The end of a session leaves no turn active and no writer. */
  lemma SessionEndLeaves(s: Session)
    requires Orderly(s)
    ensures EndSession(s).projection.snapshot.writer == NoWriter && !TurnActive(EndSession(s).projection)
  {
    hide Named, Owed, OpenIsPending, Sound, ResolvePending, FinishTurn;
    var p := s.projection;
    ActiveIsNamed(s);
    if TurnActive(p) {
      InterruptSound(p);
    } else if CurrentTurn(p).Some? {
      FinishSound(p, CurrentTurn(p).value, TurnInterrupted, None);
    } else if p.snapshot.pending.Some? {
      ResolveLeavesTurn(p, p.snapshot.pending.value.id, Expired, None);
    }
    WriterGone(InterruptTurn(p));
  }

  /** Its active turn is then interrupted, and in the timeline as such. */
  lemma SessionEndShows(s: Session, turnId: string) returns (outcome: ActivityItem)
    requires IsCurrent(s.projection, turnId) && EndSpared(s.projection, turnId, None)
    ensures var q := EndSession(s).projection.snapshot;
            && q.turn == TurnState(Some(turnId), NoTurn, Some(TurnInterrupted), Idle(Some(TurnInterrupted)))
            && q.pending.None? && q.writer == NoWriter
            && outcome in q.items && outcome.kind == InterruptedItem && outcome.turnId == Some(turnId)
  {
    hide FinishTurn, EndSpared;
    var failure;
    outcome, failure := FinishShows(s.projection, turnId, TurnInterrupted, None);
    WriterGone(InterruptTurn(s.projection));
  }

  lemma SessionEndRecords(s: Session, turnId: string) returns (record: ActivityItem)
    requires IsCurrent(s.projection, turnId) && RequestSpared(s.projection, turnId, None)
    ensures record in EndSession(s).projection.snapshot.items
    ensures Records(record, s.projection.snapshot.pending.value, Some(turnId), Expired, None)
  {
    hide FinishTurn, Records, Spared, InteractionRecord, RequestSpared, EndPrompt;
    record := PromptEndRecords(s, turnId, TurnInterrupted, None);
    EndIsFinish(s, turnId);
    WriterGone(InterruptTurn(s.projection));
  }

  lemma EndIsFinish(s: Session, turnId: string)
    requires IsCurrent(s.projection, turnId)
    ensures EndPrompt(s, turnId, TurnInterrupted, None).projection == InterruptTurn(s.projection)
  {
    hide FinishTurn;
  }

  lemma WriterGone(p: Projection)
    ensures var q := SetWriter(p, NoWriter);
            && q.snapshot.writer == NoWriter && q.snapshot.turn == p.snapshot.turn && q.snapshot.items == p.snapshot.items
            && q.snapshot.pending == p.snapshot.pending
  {
  }
}
