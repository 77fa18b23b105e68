/** What every operation on a session keeps, whatever the ids: its byte
    accounts, its log of deltas, the legality of its turns and its status. */
module SessionRuns {
  import opened Text
  import opened DetailText
  import opened UserTexts
  import opened Activity
  import opened Projection
  import opened ProjectionRuns
  import opened Accounting
  import opened TurnLog

  ghost predicate Steady(p: Projection) {
    Accounted(p) && Logged(p)
  }

  /** The status a consumer sees is that of the turn and the request. */
  predicate StatusIs(p: Projection) {
    TellsStatus(p.snapshot.turn, p.snapshot.pending)
  }

  ghost predicate Sound(p: Projection) {
    Steady(p) && StatusIs(p)
  }

  /** A step that leaves the turn and the request alone. */
  ghost predicate Quiet(p: Projection, q: Projection) {
    Steady(q) && q.snapshot.turn == p.snapshot.turn && q.snapshot.pending == p.snapshot.pending
  }

  /** Nothing accounted or logged differs. */
  ghost predicate SameState(p: Projection, q: Projection) {
    SameAccounts(p, q) && q.snapshot == p.snapshot && q.base == p.base && q.sent == p.sent
  }

  lemma SameSteady(p: Projection, q: Projection)
    requires Steady(p) && SameState(p, q)
    ensures Quiet(p, q)
  {
    hide Accounted, IsTurnLog, SnapshotAt;
    SameAccounted(p, q);
  }

  lemma QuietStatus(p: Projection, q: Projection)
    requires Sound(p) && Quiet(p, q)
    ensures Sound(q)
  {
    hide Steady, StatusOf;
  }

  // ----- Items

  lemma PutItemSteady(p: Projection, item: ActivityItem)
    requires Steady(p)
    ensures Quiet(p, PutItem(p, item))
  {
    hide Accounted, IsTurnLog, SnapshotAt, CompactSize, IsLegal;
    PutItemAccounted(p, item);
    var q := Counted(p, item);
    EmitLogged(q, ItemChange(item));
  }

  /** `p` with `item` counted, before its change is sent. */
  function Counted(p: Projection, item: ActivityItem): Projection {
    var known := IndexOf(p.snapshot.items, item.id);
    var earlier := match known case Some(i) => CompactSize(p.snapshot.items[i]) case None => 0;
    p.(compactBytes := p.compactBytes - earlier + CompactSize(item),
       inserted := if known.Some? then p.inserted else p.inserted + [Entry(item.id, item.turnId)])
  }

  lemma EvictSteady(p: Projection, ids: seq<string>)
    requires Steady(p)
    ensures Quiet(p, Evict(p, ids))
  {
    hide Accounted, IsTurnLog, SnapshotAt, SizeOf, DropItems, EvictedHistory, IsLegal;
    EvictAccounted(p, ids);
    var q := DropItems(p.(compactBytes := p.compactBytes - SizeOf(p.snapshot.items, ids)), ids);
    DroppedKeeps(p.(compactBytes := p.compactBytes - SizeOf(p.snapshot.items, ids)), ids);
    var open := if q.open.Some? && q.open.value.1 in ids then None else q.open;
    EmitLogged(q.(open := open), Truncated(ids, EvictedHistory(p, ids)));
  }

  lemma {:induction false} EnforceSteady(p: Projection)
    requires Steady(p)
    ensures Quiet(p, Enforce(p))
    decreases |p.snapshot.items|
  {
    hide Steady, Evict, GroupOf, OverBounds, CurrentTurn;
    if OverBounds(p) && FirstOutside(p.snapshot.items, CurrentTurn(p)).Some? {
      var items := p.snapshot.items;
      var item := items[FirstOutside(items, CurrentTurn(p)).value];
      var ids := GroupOf(items, item);
      EvictedItems(p, ids);
      GroupHasItem(items, item);
      WithoutIsShorter(items, ids);
      EvictSteady(p, ids);
      EnforceSteady(Evict(p, ids));
    }
  }

  lemma ShowHeldSteady(p: Projection, except: Option<string>)
    requires Steady(p)
    ensures Quiet(p, ShowHeld(p, except))
  {
    hide Steady, PutItem, Enforce;
    if p.held.Some? {
      SameSteady(p, p.(held := None));
      PutItemSteady(p.(held := None), p.held.value);
      EnforceSteady(PutItem(p.(held := None), p.held.value));
    }
  }

  lemma UpsertSteady(p: Projection, item: ActivityItem)
    requires Steady(p)
    ensures Quiet(p, Upsert(p, item))
  {
    hide Steady, PutItem, Enforce, ShowHeld;
    ShowHeldSteady(p, Some(item.id));
    PutItemSteady(ShowHeld(p, Some(item.id)), item);
    EnforceSteady(PutItem(ShowHeld(p, Some(item.id)), item));
  }

  // ----- Detail and aside changes

  lemma SetDetailSteady(p: Projection, id: string, detail: Detail)
    requires Steady(p)
    ensures Quiet(p, SetDetail(p, id, detail).0)
  {
    hide Accounted, IsTurnLog, SnapshotAt, DetailSize;
    SetDetailAccounted(p, id, detail);
  }

  lemma TakeMediaSteady(p: Projection, id: string)
    requires Steady(p)
    ensures Quiet(p, TakeMedia(p, id).0)
  {
    hide Accounted, IsTurnLog, SnapshotAt, DataSize;
    TakeMediaAccounted(p, id);
  }

  lemma PutMediaSteady(p: Projection, id: string, data: seq<MediaData>)
    requires Steady(p)
    ensures Quiet(p, PutMedia(p, id, data))
  {
    hide Accounted, IsTurnLog, SnapshotAt, DataSize;
    PutMediaAccounted(p, id, data);
  }

  lemma ReleaseItemSteady(p: Projection, id: string, textHeld: bool)
    requires Steady(p)
    ensures Quiet(p, ReleaseItem(p, id, textHeld).0)
    ensures ReleaseItem(p, id, textHeld).0.detailBytes == p.detailBytes - ReleaseItem(p, id, textHeld).1
  {
    hide Accounted, IsTurnLog, SnapshotAt, DetailSize, DataSize;
    ReleaseItemAccounted(p, id, textHeld);
  }

  lemma EmitSteady(p: Projection, change: Change)
    requires Steady(p) && !change.ItemChange? && !change.Truncated?
    requires change.TurnChange? ==> IsLegal(p.snapshot, change.turn)
    ensures Steady(Emit(p, change))
  {
    hide Accounted, IsTurnLog, SnapshotAt, IsLegal, Logged;
    SameAccounted(p, Emit(p, change));
    EmitLogged(p, change);
  }

  lemma AsideQuiet(p: Projection, change: Change)
    requires Steady(p) && IsAside(change)
    ensures Quiet(p, Emit(p, change))
  {
    hide Steady, IsLegal;
    EmitSteady(p, change);
  }

  // ----- What the agent sends

  lemma PutTextSteady(p: Projection, id: string, kind: ItemKind, block: DetailBlock)
    requires Steady(p)
    ensures Quiet(p, PutTextBlock(p, id, kind, block))
  {
    hide Steady, SetDetail, TextItem, Upsert, BlockSize;
    SetDetailSteady(p, id, Blocks([block], BlockSize(block)));
    UpsertSteady(SetDetail(p, id, Blocks([block], BlockSize(block))).0, TextItem(p, id, kind, block));
  }

  lemma PutUserSteady(p: Projection, id: string, user: Option<BlockStart>, block: DetailBlock, segments: seq<Segment>)
    requires Steady(p) && CanShow(user, block)
    ensures Quiet(p, PutUserMessage(p, id, user, block, segments))
  {
    hide Steady, ShowHeld, SetDetail, TextItem, Upsert, BlockSize, UserSize, Shown, ShowingOf;
    var q := ShowHeld(p, Some(id));
    ShowHeldSteady(p, Some(id));
    var item := TextItem(q, id, UserMessage(segments), Shown(user, block).0);
    var detail := Blocks([block], BlockSize(block) + UserSize(user));
    SameSteady(q, q.(users := q.users[id := user]));
    SetDetailSteady(q.(users := q.users[id := user]), id, detail);
    var r := SetDetail(q.(users := q.users[id := user]), id, detail).0;
    SameSteady(r, r.(held := None));
    SameSteady(r, r.(held := Some(item)));
    UpsertSteady(r.(held := None), item);
  }

  lemma AppendSteady(p: Projection, role: Role, id: string, text: string, segments: seq<Segment>, parts: seq<MediaPart>)
    requires Steady(p) && !Misfits(p, role, id, text)
    ensures Quiet(p, AppendTo(p, role, id, text, segments, parts))
  {
    hide Steady, CanShow, KnownText, Extend, PutUserMessage, PutTextBlock, UserOf, TakeMedia, PutMedia, HoldAll;
    match KnownText(p, id)
    case None =>
    case Some(known) =>
      match role
      case User =>
        var limit := p.retention.itemDetail;
        var (user, block) := Extend(UserOf(p, id), known, text, limit);
        SameSteady(p, p.(users := p.users - {id}));
        PutUserSteady(p.(users := p.users - {id}), id, user, block, segments);
      case Agent =>
        ExtendMediaSteady(p, id, parts, PlaceAfter(known, text));
        var (q, media) := ExtendMedia(p, id, parts, PlaceAfter(known, text));
        PutTextSteady(q, id, AgentMessage(media), ExtendText(known, text, NO_LIMIT));
      case Thought =>
        PutTextSteady(p, id, Reasoning, ExtendText(known, text, p.retention.itemDetail));
  }

  lemma ExtendMediaSteady(p: Projection, id: string, parts: seq<MediaPart>, offset: nat)
    requires Steady(p)
    ensures Quiet(p, ExtendMedia(p, id, parts, offset).0)
  {
    hide Steady, TakeMedia, PutMedia, HoldAll, NewSegments, MediaOf;
    var (q, data) := TakeMedia(p, id);
    TakeMediaSteady(p, id);
    PutMediaSteady(q, id, data + HoldAll(parts, p.retention.mediaItem));
  }

  lemma MessageSteady(p: Projection, role: Role, messageId: Option<string>, text: string,
                         segments: seq<Segment>, parts: seq<MediaPart>)
    requires Steady(p) && !Panics(p, Message(role, messageId, text, segments, parts))
    ensures Quiet(p, AppendMessage(p, role, messageId, text, segments, parts))
  {
    hide Steady, Misfits, AppendTo, KnownText, Decimal, Continues, CurrentTurn, ReplayName;
    var (q, id) := Addressed(p, role, messageId);
    SameSteady(p, q);
    AppendSteady(q, role, id, text, segments, parts);
  }

  lemma ToolSteady(p: Projection, update: ToolUpdate)
    requires Steady(p)
    ensures Quiet(p, UpsertTool(p, update))
  {
    hide Steady, TakeMedia, PutMedia, HoldAll, SetDetail, BoundedBlocks, ToolItem, Upsert;
    var q := ToolMedia(p.(open := None), update);
    SameSteady(p, p.(open := None));
    match update.media {
      case Some(parts) =>
        TakeMediaSteady(p.(open := None), update.id);
        PutMediaSteady(TakeMedia(p.(open := None), update.id).0, update.id, HoldAll(parts, p.retention.mediaItem));
      case None =>
    }
    match update.blocks {
      case Some(blocks) =>
        var bounded := match BoundedBlocks(blocks, q.retention.itemDetail)
                       case Kept(kept, size) => Blocks(kept, size)
                       case TooLarge => TooLargeDetail;
        SetDetailSteady(q, update.id, bounded);
        UpsertSteady(StoreDetail(q, update.id, blocks), ToolItem(p, update));
      case None => UpsertSteady(q, ToolItem(p, update));
    }
  }

  lemma SettingItemSteady(p: Projection, settings: seq<Setting>, scope: string, kind: ItemKind, text: string)
    requires Steady(p)
    ensures Quiet(p, PutSettingItem(p, settings, scope, kind, text))
  {
    hide Steady, Emit, PutTextBlock, ExcerptOf, Decimal;
    AsideQuiet(p, SettingsChange(settings));
    var (q, id) := NextLocalId(SetSettings(p, settings), "session", scope);
    SameSteady(SetSettings(p, settings), q);
    PutTextSteady(q, id, kind, ExcerptOf(text, q.retention.itemDetail));
  }

  lemma {:induction false} ReleaseSteady(p: Projection, candidates: seq<(string, bool)>, need: nat, freed: nat)
    requires Steady(p)
    ensures Quiet(p, ReleaseEach(p, candidates, need, freed).0)
    decreases |candidates|
  {
    hide Steady, ReleaseItem;
    if candidates != [] && freed < need {
      var (q, more) := ReleaseItem(p, candidates[0].0, candidates[0].1);
      ReleaseItemSteady(p, candidates[0].0, candidates[0].1);
      ReleaseSteady(q, candidates[1..], need, freed + more);
    }
  }

  // ----- Turns

  lemma SetTurnSound(p: Projection, turnId: Option<string>, phase: Phase, outcome: Option<StopReason>)
    requires Steady(p)
    requires var turn := TurnState(turnId, phase, outcome, StatusOf(phase, outcome, p.snapshot.pending));
             IsBegin(p.snapshot, turn) || IsCancel(p.snapshot, turn) || IsEnd(p.snapshot, turn) || IsRefresh(p.snapshot, turn)
    ensures Sound(SetTurn(p, turnId, phase, outcome))
  {
    hide Steady, StatusOf, TellsStatus;
    var turn := TurnState(turnId, phase, outcome, StatusOf(phase, outcome, p.snapshot.pending));
    StatusTells(turn, p.snapshot.pending);
    EmitSteady(p, TurnChange(turn));
  }

  lemma RefreshSound(p: Projection)
    requires Steady(p)
    ensures Sound(RefreshStatus(p))
  {
    hide Steady, StatusOf, SetTurn, TellsStatus;
    var turn := p.snapshot.turn;
    StatusTells(turn, p.snapshot.pending);
    if StatusOf(turn.phase, turn.lastOutcome, p.snapshot.pending) != turn.status {
      SetTurnSound(p, turn.turnId, turn.phase, turn.lastOutcome);
    }
  }

  lemma BeginSound(p: Projection, turnId: string, text: string, segments: seq<Segment>)
    requires Steady(p) && !TurnActive(p)
    ensures Sound(BeginTurn(p, turnId, text, segments))
  {
    hide Steady, PutUserMessage, Extend, StatusOf, SetTurn;
    var limit := p.retention.itemDetail;
    var q := SetTurn(p.(open := None), Some(turnId), InTurn, None);
    SameSteady(p, p.(open := None));
    SetTurnSound(p.(open := None), Some(turnId), InTurn, None);
    ExtendHolds(None, TextBlock(""), text, limit);
    PutUserSteady(q, "user:" + turnId, Extend(None, TextBlock(""), text, limit).0, Extend(None, TextBlock(""), text, limit).1,
                  segments);
    QuietStatus(q, BeginTurn(p, turnId, text, segments));
  }

  /** The same turn goes on, but for its status. */
  predicate SameTurn(p: Projection, q: Projection) {
    && q.snapshot.turn.turnId == p.snapshot.turn.turnId && q.snapshot.turn.phase == p.snapshot.turn.phase
    && q.snapshot.turn.lastOutcome == p.snapshot.turn.lastOutcome
  }

  lemma ResolveSound(p: Projection, id: string, state: InteractionState, answer: Option<Answer>)
    requires Sound(p)
    ensures Sound(ResolvePending(p, id, state, answer)) && SameTurn(p, ResolvePending(p, id, state, answer))
  {
    hide Steady, Upsert, InteractionRecord, StatusOf, IsLegal;
    if p.snapshot.pending.Some? {
      var pending := p.snapshot.pending.value.(state := state);
      var q := Emit(p, PendingChange(pending));
      var record := InteractionRecord(p, pending, state, answer);
      EmitSteady(p, PendingChange(pending));
      UpsertSteady(q, record);
      RefreshSound(Upsert(q, record));
    }
  }

  lemma CloseSound(p: Projection, state: InteractionState)
    requires Sound(p)
    ensures Sound(ClosePending(p, state)) && SameTurn(p, ClosePending(p, state))
  {
    hide Steady, ResolvePending, StatusIs;
    if p.snapshot.pending.Some? { ResolveSound(p, p.snapshot.pending.value.id, state, None); }
  }

  lemma PutErrorSteady(p: Projection, turnId: string, error: Option<string>)
    requires Steady(p)
    ensures Quiet(p, PutError(p, turnId, error))
  {
    hide Steady, PutTextBlock, ExcerptOf, Decimal;
    match error
    case Some(message) =>
      var (q, id) := NextLocalId(p, turnId, "error");
      SameSteady(p, q);
      PutTextSteady(q, id, ErrorItem, ExcerptOf(message, q.retention.itemDetail));
    case None =>
  }

  lemma FinishSound(p: Projection, turnId: string, reason: StopReason, error: Option<string>)
    requires Sound(p)
    ensures Sound(FinishTurn(p, turnId, reason, error))
    ensures IsCurrent(p, turnId) ==> !TurnActive(FinishTurn(p, turnId, reason, error))
                                     && FinishTurn(p, turnId, reason, error).snapshot.turn.lastOutcome == Some(reason)
    ensures !IsCurrent(p, turnId) ==> FinishTurn(p, turnId, reason, error) == p
  {
    hide Steady, ClosePending, PutError, OutcomeItem, StatusOf, Upsert;
    if IsCurrent(p, turnId) {
      var q := ClosePending(p, PendingOutcome(reason));
      CloseSound(p, PendingOutcome(reason));
      SameSteady(q, q.(open := None));
      PutErrorSteady(q.(open := None), turnId, error);
      var r := PutError(q.(open := None), turnId, error);
      UpsertSteady(r, OutcomeItem(turnId, reason));
      SetTurnSound(Upsert(r, OutcomeItem(turnId, reason)), Some(turnId), NoTurn, Some(reason));
    }
  }

  lemma InterruptSound(p: Projection)
    requires Sound(p)
    ensures Sound(InterruptTurn(p))
    ensures TurnActive(p) && p.snapshot.turn.turnId.Some? ==> !TurnActive(InterruptTurn(p))
  {
    hide Sound, FinishTurn, ClosePending;
    match CurrentTurn(p)
    case Some(turnId) => FinishSound(p, turnId, TurnInterrupted, None);
    case None => CloseSound(p, Expired);
  }

  // ----- Any run

  lemma SettersQuiet(p: Projection, action: Action)
    requires Steady(p) && IsSetter(action) && !Panics(p, action)
    ensures Quiet(p, Step(p, action))
  {
    hide *;
    var change := SetterEmits(p, action);
    AsideQuiet(p, change);
    if Step(p, action) == p { ItselfQuiet(p); }
  }

  lemma ItselfQuiet(p: Projection)
    requires Steady(p)
    ensures Quiet(p, p)
  {
  }

  /** Operations on items and what surrounds them leave the turn alone. */
  predicate IsOfTurn(action: Action) {
    action.Begin? || action.Cancel? || action.Finish? || action.Interrupt? || action.Pend? || action.Resolve?
  }

  lemma ItemsQuiet(p: Projection, action: Action)
    requires Steady(p) && !IsOfTurn(action) && !Panics(p, action)
    ensures Quiet(p, Step(p, action))
  {
    hide Steady, ShowHeld, AppendMessage, UpsertTool, PutSettingItem, Upsert, ReleaseEach, Candidates, CurrentTurn;
    hide Addressed, Misfits, Decimal, Quiet, SameAccounts;
    ItselfQuiet(p);
    match action
    case CompleteReplay =>
      ShowHeldSteady(p, None);
      QuietThen(p, ShowHeld(p, None), EndReplay(p));
    case Message(role, messageId, text, segments, parts) =>
      MessageSteady(p, role, messageId, text, segments, parts);
    case Tool(update) => ToolSteady(p, update);
    case NewPlan(entries) =>
      var turn := CurrentTurn(p);
      var item := ActivityItem("plan:" + turn.UnwrapOr("session"), turn, Plan(entries), None, "", false);
      ThenUpsert(p, p.(open := None), item);
    case ModeIs(settings, mode) => SettingItemSteady(p, settings, "mode", ModeChange, mode);
    case ConfigIs(settings) => SettingItemSteady(p, settings, "config", ConfigChange, "");
    case Other(what) =>
      var (q, id) := NextLocalId(p, "session", "generic");
      ThenUpsert(p, q, ActivityItem(id, CurrentTurn(p), Generic(what), None, "", false));
    case Release(need) => ReleaseSteady(p, Candidates(p.snapshot.items, CurrentTurn(p)), need, 0);
    case Look(_) =>
    case _ => SettersQuiet(p, action);
  }

  lemma QuietThen(p: Projection, q: Projection, r: Projection)
    requires Quiet(p, q) && r == q.(replay := None, open := None)
    ensures Quiet(p, r)
  {
    hide Steady;
    SameSteady(q, r);
  }

  lemma ThenUpsert(p: Projection, q: Projection, item: ActivityItem)
    requires Steady(p) && (q == p.(open := None) || q == p.(nextLocal := p.nextLocal + 1))
    ensures Quiet(p, Upsert(q, item))
  {
    hide Steady, Upsert;
    SameSteady(p, q);
    UpsertSteady(q, item);
  }

  /** The status of a sound session: idle with the last outcome exactly without
      an active turn; in one, waiting for the user exactly while an interaction
      is pending, and for its kind, and else running. */
  lemma StatusLaw(p: Projection, kind: InteractionKind)
    requires Sound(p)
    ensures var status, pending := p.snapshot.turn.status, p.snapshot.pending;
            && (status == Idle(p.snapshot.turn.lastOutcome) <==> p.snapshot.turn.phase == NoTurn)
            && (status.Idle? <==> p.snapshot.turn.phase == NoTurn)
            && (status == RequiresAction(kind) <==>
                  p.snapshot.turn.phase != NoTurn && pending.Some? && pending.value.kind == kind)
            && (status == Running <==> p.snapshot.turn.phase != NoTurn && pending.None?)
  {
    hide Steady;
  }

  /** Every operation the code does not panic on keeps the accounts, the log,
      its turns and the status. */
  lemma StepSound(p: Projection, action: Action)
    requires Sound(p) && !Panics(p, action)
    ensures Sound(Step(p, action))
  {
    hide Steady, BeginTurn, FinishTurn, InterruptTurn, ResolvePending, RefreshStatus, StatusOf, IsLegal, Addressed, Misfits;
    match action
    case Begin(turnId, text, segments) => if !TurnActive(p) { BeginSound(p, turnId, text, segments); }
    case Cancel =>
      if p.snapshot.turn.phase == InTurn {
        SetTurnSound(p, p.snapshot.turn.turnId, Cancelling, p.snapshot.turn.lastOutcome);
      }
    case Finish(turnId, reason, error) => FinishSound(p, turnId, reason, error);
    case Interrupt => InterruptSound(p);
    case Pend(pending) =>
      EmitSteady(p, PendingChange(pending));
      RefreshSound(Emit(p, PendingChange(pending)));
    case Resolve(id, state, answer) => ResolveSound(p, id, state, answer);
    case _ => OthersSound(p, action);
  }

  lemma OthersSound(p: Projection, action: Action)
    requires Sound(p) && !IsOfTurn(action) && !Panics(p, action)
    ensures Sound(Step(p, action))
  {
    hide *;
    SoundIsSteady(p);
    ItemsQuiet(p, action);
    QuietStatus(p, Step(p, action));
  }

  lemma SoundIsSteady(p: Projection)
    requires Sound(p)
    ensures Steady(p)
  {
  }

  /** Over any run at all: the compact bytes are the sum of the items' sizes,
      the detail bytes that of what is held, the snapshot what its deltas make
      of the first one, each turn change legal, and the status current. */
  lemma {:induction false} RunIsSound(connection: Connection, history: HistoryState, replay: bool, writer: WriterState,
                                      retention: Retention, actions: seq<Action>)
    ensures match Run(NewProjection(connection, history, replay, writer, retention), actions)
            case Some(p) => Sound(p)
            case None => true
  {
    hide Sound, Step, Panics;
    var p := NewProjection(connection, history, replay, writer, retention);
    if actions == [] {
      NewIsSound(connection, history, replay, writer, retention);
    } else {
      RunIsSound(connection, history, replay, writer, retention, actions[..|actions| - 1]);
      match Run(p, actions[..|actions| - 1])
      case Some(q) => if !Panics(q, actions[|actions| - 1]) { StepSound(q, actions[|actions| - 1]); }
      case None =>
    }
  }

  lemma NewIsSound(connection: Connection, history: HistoryState, replay: bool, writer: WriterState, retention: Retention)
    ensures Sound(NewProjection(connection, history, replay, writer, retention))
  {
  }

  lemma LoggedParts(p: Projection)
    requires Logged(p)
    ensures Consecutive(p.base, p.sent) && UniqueIds(p.base.items)
    ensures p.snapshot == SnapshotAt(p.base, p.sent, |p.sent|)
  {
    hide IsLegal, SnapshotAt;
  }

  lemma ViewIsUnique(base: Snapshot, log: seq<Delta>, from: nat, deltas: seq<Delta>)
    requires Consecutive(base, log) && UniqueIds(base.items) && from <= |log|
    requires forall d :: d in deltas ==> d in log
    ensures UniqueIds(Delivered(SnapshotAt(base, log, from), deltas).items)
  {
    hide *;
    ViewIsSnapshot(base, log, from, deltas);
    SnapshotsUnique(base, log, Delivered(SnapshotAt(base, log, from), deltas).seqNo - base.seqNo);
  }

  /** Consumers of a session: whatever of its deltas reaches one, in whatever
      order, from the snapshot it subscribed at, it holds the session's
      snapshot of that number, and no item twice. */
  lemma ConsumersAgree(p: Projection, from: nat, deltas: seq<Delta>)
    requires Logged(p) && from <= |p.sent| && forall d :: d in deltas ==> d in p.sent
    ensures var view := Delivered(SnapshotAt(p.base, p.sent, from), deltas);
            && p.base.seqNo <= view.seqNo <= p.base.seqNo + |p.sent|
            && view == SnapshotAt(p.base, p.sent, view.seqNo - p.base.seqNo)
            && UniqueIds(view.items)
  {
    hide *;
    LoggedParts(p);
    ViewIsSnapshot(p.base, p.sent, from, deltas);
    ViewIsUnique(p.base, p.sent, from, deltas);
  }

  /** One that misses none holds the session's own snapshot. */
  lemma ConsumersCatchUp(p: Projection, from: nat)
    requires Logged(p) && from <= |p.sent|
    ensures Delivered(SnapshotAt(p.base, p.sent, from), p.sent[from..|p.sent|]) == p.snapshot
  {
    hide *;
    LoggedParts(p);
    ViewCatchesUp(p.base, p.sent, from, |p.sent|);
  }
}
