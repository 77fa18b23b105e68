/** The ids the runtime makes for items no agent names: none is made twice. */
module LocalIds {
  import opened Text
  import opened DetailText
  import opened UserTexts
  import opened Activity
  import opened Projection
  import opened TurnRetention
  import opened ProjectionRuns

  /** `id` is one of those made so far, under whatever scope and kind. */
  ghost predicate IsMade(p: Projection, id: string) {
    exists scope: string, n: nat :: 1 <= n <= p.nextLocal && id == scope + ":" + Decimal(n)
  }

  lemma {:induction false} DecimalIsDigits(n: nat)
    ensures ':' !in Decimal(n)
  {
    if n >= 10 { DecimalIsDigits(n / 10); }
  }

  /** What follows the last colon is all that tells two such ids apart. */
  lemma SameNumber(a: string, b: string, m: nat, n: nat)
    requires a + ":" + Decimal(m) == b + ":" + Decimal(n)
    ensures m == n
  {
    hide Decimal;
    DecimalIsDigits(m);
    DecimalIsDigits(n);
    LastColon(a, b, Decimal(m), Decimal(n));
    if m != n { DecimalDiffers(m, n); }
  }

  lemma LastColon(a: string, b: string, d: string, e: string)
    requires a + ":" + d == b + ":" + e && ':' !in d && ':' !in e
    ensures d == e
  {
    var s := a + ":" + d;
    ColonIsLast(a, d);
    ColonIsLast(b, e);
    assert |a| == |b|;
    assert s[|a| + 1..] == d && s[|b| + 1..] == e;
  }

  lemma ColonIsLast(a: string, d: string)
    requires ':' !in d
    ensures var s := a + ":" + d; s[|a|] == ':' && forall k :: |a| < k < |s| ==> s[k] != ':'
  {
    var s := a + ":" + d;
    forall k | |a| < k < |s| ensures s[k] != ':' { assert s[k] == d[k - |a| - 1]; }
  }

  /** The next id the runtime makes is none made before. */
  lemma NextIsMade(p: Projection, scope: string, kind: string)
    ensures var (q, id) := NextLocalId(p, scope, kind);
            !IsMade(p, id) && IsMade(q, id) && forall other :: IsMade(p, other) ==> IsMade(q, other)
  {
    hide Decimal;
    var (q, id) := NextLocalId(p, scope, kind);
    var prefix := scope + ":" + kind;
    assert id == prefix + ":" + Decimal(q.nextLocal);
    if IsMade(p, id) {
      var other: string, n: nat :| 1 <= n <= p.nextLocal && id == other + ":" + Decimal(n);
      SameNumber(prefix, other, q.nextLocal, n);
    }
    forall other | IsMade(p, other) ensures IsMade(q, other) {
      var before: string, n: nat :| 1 <= n <= p.nextLocal && other == before + ":" + Decimal(n);
    }
  }

  // ----- Over any run

  lemma PutTextCounts(p: Projection, id: string, kind: ItemKind, block: DetailBlock)
    ensures PutTextBlock(p, id, kind, block).nextLocal == p.nextLocal
  {
    hide TextItem, Upsert, BlockSize, DetailSize;
    UpsertParts(SetDetail(p, id, Blocks([block], BlockSize(block))).0, TextItem(p, id, kind, block));
  }

  lemma PutUserCounts(p: Projection, id: string, user: Option<BlockStart>, block: DetailBlock, segments: seq<Segment>)
    requires CanShow(user, block)
    ensures PutUserMessage(p, id, user, block, segments).nextLocal == p.nextLocal
  {
    hide ShowHeld, TextItem, Upsert, BlockSize, UserSize, DetailSize, Shown, ShowingOf;
    ShownParts(p, Some(id));
    var q := ShowHeld(p, Some(id));
    var r := SetDetail(q.(users := q.users[id := user]), id, Blocks([block], BlockSize(block) + UserSize(user))).0;
    UpsertParts(r.(held := None), TextItem(q, id, UserMessage(segments), Shown(user, block).0));
  }

  lemma AppendCounts(p: Projection, role: Role, id: string, text: string, segments: seq<Segment>, parts: seq<MediaPart>)
    requires !Misfits(p, role, id, text)
    ensures AppendTo(p, role, id, text, segments, parts).nextLocal == p.nextLocal
  {
    hide KnownText, UserOf, Extend, PutUserMessage, PutTextBlock, ExtendText, CanShow, DataSize, HoldAll, NewSegments, MediaOf;
    match KnownText(p, id)
    case None =>
    case Some(known) =>
      match role
      case User =>
        var (user, block) := Extend(UserOf(p, id), known, text, p.retention.itemDetail);
        PutUserCounts(p.(users := p.users - {id}), id, user, block, segments);
      case Agent =>
        var (q, media) := ExtendMedia(p, id, parts, PlaceAfter(known, text));
        PutTextCounts(q, id, AgentMessage(media), ExtendText(known, text, NO_LIMIT));
      case Thought =>
        PutTextCounts(p, id, Reasoning, ExtendText(known, text, p.retention.itemDetail));
  }

  lemma ResolveCounts(p: Projection, id: string, state: InteractionState, answer: Option<Answer>)
    ensures ResolvePending(p, id, state, answer).nextLocal == p.nextLocal
  {
    hide Upsert, InteractionRecord, StatusOf;
    if p.snapshot.pending.Some? && p.snapshot.pending.value.id == id {
      var pending := p.snapshot.pending.value.(state := state);
      UpsertParts(Emit(p, PendingChange(pending)), InteractionRecord(p, pending, state, answer));
    }
  }

  lemma FinishCounts(p: Projection, turnId: string, reason: StopReason, error: Option<string>)
    ensures p.nextLocal <= FinishTurn(p, turnId, reason, error).nextLocal
  {
    hide Upsert, OutcomeItem, StatusOf, PutTextBlock, ResolvePending, Decimal, ExcerptOf;
    if p.snapshot.pending.Some? { ResolveCounts(p, p.snapshot.pending.value.id, PendingOutcome(reason), None); }
    var q := ClosePending(p, PendingOutcome(reason)).(open := None);
    match error {
      case Some(message) =>
        var (r, id) := NextLocalId(q, turnId, "error");
        PutTextCounts(r, id, ErrorItem, ExcerptOf(message, r.retention.itemDetail));
      case None =>
    }
    UpsertParts(PutError(q, turnId, error), OutcomeItem(turnId, reason));
  }

  lemma ToolCounts(p: Projection, update: ToolUpdate)
    ensures UpsertTool(p, update).nextLocal == p.nextLocal
  {
    hide Upsert, ToolItem, BoundedBlocks, DetailSize, DataSize, HoldAll;
    var q := ToolMedia(p.(open := None), update);
    var r := match update.blocks case Some(blocks) => StoreDetail(q, update.id, blocks) case None => q;
    UpsertParts(r, ToolItem(p, update));
  }

  lemma {:induction false} ReleaseCounts(p: Projection, candidates: seq<(string, bool)>, need: nat, freed: nat)
    ensures ReleaseEach(p, candidates, need, freed).0.nextLocal == p.nextLocal
    decreases |candidates|
  {
    hide DetailSize, DataSize, ReleasedAll;
    if candidates != [] && freed < need {
      var (q, more) := ReleaseItem(p, candidates[0].0, candidates[0].1);
      ReleaseCounts(q, candidates[1..], need, freed + more);
    }
  }

  lemma AddressedCounts(p: Projection, role: Role, messageId: Option<string>)
    ensures p.nextLocal <= Addressed(p, role, messageId).0.nextLocal
  {
    hide Decimal, ReplayName, CurrentTurn, Continues;
  }

  lemma BeginCounts(p: Projection, turnId: string, text: string, segments: seq<Segment>)
    requires !TurnActive(p)
    ensures BeginTurn(p, turnId, text, segments).nextLocal == p.nextLocal
  {
    hide PutUserMessage, Extend, StatusOf, CanShow;
    var q := SetTurn(p.(open := None), Some(turnId), InTurn, None);
    ExtendHolds(None, TextBlock(""), text, p.retention.itemDetail);
    var (user, block) := Extend(None, TextBlock(""), text, p.retention.itemDetail);
    PutUserCounts(q, "user:" + turnId, user, block, segments);
  }

  lemma SettingCounts(p: Projection, settings: seq<Setting>, scope: string, kind: ItemKind, text: string)
    ensures p.nextLocal <= PutSettingItem(p, settings, scope, kind, text).nextLocal
  {
    hide PutTextBlock, ExcerptOf, Decimal;
    var (q, id) := NextLocalId(SetSettings(p, settings), "session", scope);
    PutTextCounts(q, id, kind, ExcerptOf(text, q.retention.itemDetail));
  }

  lemma GenericCounts(p: Projection, what: string)
    ensures p.nextLocal <= PutGeneric(p, what).nextLocal
  {
    hide Upsert, Decimal, CurrentTurn;
    var (q, id) := NextLocalId(p, "session", "generic");
    UpsertParts(q, ActivityItem(id, CurrentTurn(p), Generic(what), None, "", false));
  }

  /** No operation makes the runtime's numbers start again. */
  lemma StepCounts(p: Projection, action: Action)
    requires !Panics(p, action)
    ensures p.nextLocal <= Step(p, action).nextLocal
  {
    hide BeginTurn, FinishTurn, ResolvePending, ShowHeld, AppendTo, Addressed, UpsertTool, Upsert, PutSettingItem, PutGeneric;
    hide ReleaseEach, Candidates, StatusOf, CurrentTurn, Misfits, LookupMisfits;
    match action
    case Begin(turnId, text, segments) => if !TurnActive(p) { BeginCounts(p, turnId, text, segments); }
    case Finish(turnId, reason, error) => FinishCounts(p, turnId, reason, error);
    case Interrupt =>
      match CurrentTurn(p) {
        case Some(turnId) => FinishCounts(p, turnId, TurnInterrupted, None);
        case None => if p.snapshot.pending.Some? { ResolveCounts(p, p.snapshot.pending.value.id, Expired, None); }
      }
    case Resolve(id, state, answer) => ResolveCounts(p, id, state, answer);
    case CompleteReplay => ShownParts(p, None);
    case Message(role, messageId, text, segments, parts) =>
      AddressedCounts(p, role, messageId);
      AppendCounts(Addressed(p, role, messageId).0, role, Addressed(p, role, messageId).1, text, segments, parts);
    case Tool(update) => ToolCounts(p, update);
    case NewPlan(entries) =>
      var turn := CurrentTurn(p);
      UpsertParts(p.(open := None), ActivityItem("plan:" + turn.UnwrapOr("session"), turn, Plan(entries), None, "", false));
    case ModeIs(settings, mode) => SettingCounts(p, settings, "mode", ModeChange, mode);
    case ConfigIs(settings) => SettingCounts(p, settings, "config", ConfigChange, "");
    case Other(what) => GenericCounts(p, what);
    case Release(need) => ReleaseCounts(p, Candidates(p.snapshot.items, CurrentTurn(p)), need, 0);
    case _ =>
  }

  /** So over any run, an id once made is never made again. */
  lemma {:induction false} MadeIsNeverMadeAgain(p: Projection, actions: seq<Action>, scope: string, kind: string, id: string)
    requires IsMade(p, id)
    ensures match Run(p, actions)
            case Some(q) => IsMade(q, id) && NextLocalId(q, scope, kind).1 != id
            case None => true
  {
    hide Step, Panics, Decimal;
    if actions != [] {
      var n := |actions| - 1;
      MadeIsNeverMadeAgain(p, actions[..n], scope, kind, id);
      match Run(p, actions[..n])
      case Some(q) =>
        if !Panics(q, actions[n]) {
          StepCounts(q, actions[n]);
          NextIsMade(Step(q, actions[n]), scope, kind);
          MoreMade(q, Step(q, actions[n]), id);
        }
      case None =>
    } else {
      NextIsMade(p, scope, kind);
    }
  }

  lemma MoreMade(p: Projection, q: Projection, id: string)
    requires IsMade(p, id) && p.nextLocal <= q.nextLocal
    ensures IsMade(q, id)
  {
    hide Decimal;
  }
}
