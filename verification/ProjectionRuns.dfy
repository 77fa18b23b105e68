/** Any run of operations on a session's projection, and the order of its
    items over it. */
module ProjectionRuns {
  import opened Text
  import opened DetailText
  import opened UserTexts
  import opened Activity
  import opened Projection
  import opened TurnRetention
  import opened Survival

  datatype Action =
    | Begin(turnId: string, text: string, segments: seq<Segment>)
    | Cancel
    | Finish(turnId: string, reason: StopReason, error: Option<string>)
    | Interrupt
    | Pend(pending: PendingInteraction)
    | Resolve(id: string, state: InteractionState, answer: Option<Answer>)
    | CompleteReplay
    | Message(role: Role, messageId: Option<string>, text: string, segments: seq<Segment>, parts: seq<MediaPart>)
    | Tool(update: ToolUpdate)
    | NewPlan(entries: seq<string>)
    | ModeIs(settings: seq<Setting>, mode: string)
    | ConfigIs(settings: seq<Setting>)
    | Other(what: string)
    | Connected(connection: Connection)
    | WrittenBy(writer: WriterState)
    | Declared(settings: seq<Setting>)
    | Offered(commands: seq<string>)
    | Used(usage: nat)
    | Titled(title: string)
    | Release(need: nat)
    | Look(id: string)

  /** A user chunk or a lookup that does not fit what is held of the message:
      the code panics. */
  predicate Panics(p: Projection, action: Action) {
    match action
    case Message(role, messageId, text, _, _) =>
      var (q, id) := Addressed(p, role, messageId);
      Misfits(q, role, id, text)
    case Look(id) => LookupMisfits(p, id)
    case _ => false
  }

  /** One operation. A turn is not begun while one is active. */
  function Step(p: Projection, action: Action): Projection
    requires !Panics(p, action)
  {
    match action
    case Begin(turnId, text, segments) => if TurnActive(p) then p else BeginTurn(p, turnId, text, segments)
    case Cancel => CancellingTurn(p)
    case Finish(turnId, reason, error) => FinishTurn(p, turnId, reason, error)
    case Interrupt => InterruptTurn(p)
    case Pend(pending) => SetPending(p, pending)
    case Resolve(id, state, answer) => ResolvePending(p, id, state, answer)
    case CompleteReplay => EndReplay(p)
    case Message(role, messageId, text, segments, parts) => AppendMessage(p, role, messageId, text, segments, parts)
    case Tool(update) => UpsertTool(p, update)
    case NewPlan(entries) => PutPlan(p, entries)
    case ModeIs(settings, mode) => PutSettingItem(p, settings, "mode", ModeChange, mode)
    case ConfigIs(settings) => PutSettingItem(p, settings, "config", ConfigChange, "")
    case Other(what) => PutGeneric(p, what)
    case Connected(connection) => SetConnection(p, connection)
    case WrittenBy(writer) => SetWriter(p, writer)
    case Declared(settings) => SetSettings(p, settings)
    case Offered(commands) => SetCommands(p, commands)
    case Used(usage) => SetUsage(p, usage)
    case Titled(title) => SetTitle(p, title)
    case Release(need) => ReleaseDetail(p, need).0
    case Look(_) => p
  }

  /** The state after `actions`, none if the code panics on one of them. */
  function Run(p: Projection, actions: seq<Action>): Option<Projection> {
    if actions == [] then Some(p)
    else
      var action := actions[|actions| - 1];
      match Run(p, actions[..|actions| - 1])
      case Some(q) => if Panics(q, action) then None else Some(Step(q, action))
      case None => None
  }

  /** More than an item takes that has a short id and holds nothing by its kind. */
  const SMALL_ITEM: nat := 0x1100

  lemma ToolSteps(p: Projection, update: ToolUpdate)
    ensures !Panics(p, Tool(update)) && Step(p, Tool(update)) == UpsertTool(p, update)
  {
    hide UpsertTool;
  }

  lemma RunOnce(p: Projection, action: Action)
    ensures Run(p, [action]) == if Panics(p, action) then None else Some(Step(p, action))
  {
    hide Panics, Step;
    assert [action][..0] == [];
  }

  lemma RunOnceMore(p: Projection, actions: seq<Action>, action: Action)
    requires Run(p, actions).Some?
    ensures Run(p, actions + [action])
            == if Panics(Run(p, actions).value, action) then None else Some(Step(Run(p, actions).value, action))
  {
    hide Panics, Step;
    assert (actions + [action])[..|actions|] == actions;
  }

  // ----- What the order asks of the ids

  /** `id` is not that of the user message held back. */
  predicate Apart(p: Projection, id: string) {
    p.held.Some? ==> p.held.value.id != id
  }

  /** What an agent's update of `id` asks: while a user message is held back,
      the item known by it may rejoin the list. */
  predicate Settled(p: Projection, id: string) {
    && Apart(p, id)
    && match IndexOf(p.snapshot.items, id)
       case Some(i) => p.held.Some? ==> Rejoins(p, i)
       case None => true
  }

  /** No item of another turn is known by `id`, or none will be once the message
      held back is shown. */
  predicate IsUnclaimed(p: Projection, id: string) {
    match IndexOf(p.snapshot.items, id)
    case Some(i) => p.snapshot.items[i].turnId == CurrentTurn(p) || MakesRoom(p, i)
    case None => true
  }

  /** What an item asks that the runtime puts under an id of its own. */
  predicate IsFree(p: Projection, id: string) {
    Apart(p, id) && IsUnclaimed(p, id)
  }

  function LocalId(p: Projection, scope: string, kind: string): string {
    NextLocalId(p, scope, kind).1
  }

  function MessageId(p: Projection, role: Role, messageId: Option<string>): string {
    MessageIdOf(p, role, messageId).1
  }

  predicate PendingFree(p: Projection) {
    p.snapshot.pending.Some? ==> IsFree(p, p.snapshot.pending.value.id)
  }

  predicate FinishFree(p: Projection, turnId: string) {
    IsCurrent(p, turnId) ==> PendingFree(p) && IsFree(p, "outcome:" + turnId)
  }

  /** Turn ids are new, live turns come after the replay, and the ids of agent
      items, user messages and the runtime's own items keep apart. */
  ghost predicate Allowed(p: Projection, action: Action) {
    match action
    case Begin(turnId, _, _) => p.replay.None? && (TurnActive(p) || turnId !in TurnsIn(Log(p)))
    case Finish(turnId, _, _) => FinishFree(p, turnId)
    case Interrupt => if CurrentTurn(p).Some? then FinishFree(p, CurrentTurn(p).value) else PendingFree(p)
    case Resolve(_, _, _) => PendingFree(p)
    case Message(role, messageId, _, _, _) => role == User || Settled(p, MessageId(p, role, messageId))
    case Tool(update) => Settled(p, update.id)
    case NewPlan(_) => IsFree(p, "plan:" + CurrentTurn(p).UnwrapOr("session"))
    case ModeIs(_, _) => Settled(p, LocalId(p, "session", "mode"))
    case ConfigIs(_) => Settled(p, LocalId(p, "session", "config"))
    case Other(_) => IsFree(p, LocalId(p, "session", "generic"))
    case _ => true
  }

  ghost predicate AllAllowed(p: Projection, actions: seq<Action>) {
    actions == [] || (AllAllowed(p, actions[..|actions| - 1]) &&
      match Run(p, actions[..|actions| - 1])
      case Some(q) => Allowed(q, actions[|actions| - 1])
      case None => true)
  }

  // ----- Free ids stay free

  lemma ItemsLeft(p: Projection, item: ActivityItem, id: string)
    requires Ordered(p) && Fits(p, item)
    ensures var items := Upsert(p, item).snapshot.items;
            match IndexOf(items, id)
            case Some(i) =>
              || (id == item.id && items[i].turnId == item.turnId)
              || (p.held.Some? && id == p.held.value.id)
              || (id != item.id && IndexOf(p.snapshot.items, id).Some?
                  && items[i].turnId == p.snapshot.items[IndexOf(p.snapshot.items, id).value].turnId)
            case None => true
  {
    hide *;
    FitsApart(p, item);
    ShowHeldKeeps(p, Some(item.id));
    KnownIfShown(p, item);
    var q := ShowHeld(p, Some(item.id));
    var r := PutItem(q, item);
    if IndexOf(q.snapshot.items, item.id).Some? { PutKnown(q, item); } else { PutComes(q, item); }
    PutParts(q, item);
    EnforceKeeps(r);
    EnforcedTail(r);
    UpsertIs(p, item);
    var items := Enforce(r).snapshot.items;
    if IndexOf(items, id).Some? {
      var other := items[IndexOf(items, id).value];
      InTail(items, r.snapshot.items, other);
      if id == item.id {
        OrderedIsUnique(q);
        ItsOwnTurn(q.snapshot.items, item, other);
      } else if p.held.None? || id != p.held.value.id {
        FromShown(p, item, other);
      }
    }
  }

  lemma FitsApart(p: Projection, item: ActivityItem)
    requires Fits(p, item)
    ensures p.held.Some? ==> p.held.value.id != item.id
  {
  }

  lemma ItsOwnTurn(items: seq<ActivityItem>, item: ActivityItem, other: ActivityItem)
    requires UniqueIds(items) && other in WithItem(items, item) && other.id == item.id
    ensures other == item
  {
    var k :| 0 <= k < |WithItem(items, item)| && WithItem(items, item)[k] == other;
  }

  lemma FromShown(p: Projection, item: ActivityItem, other: ActivityItem)
    requires Ordered(p) && other.id != item.id && (p.held.Some? ==> other.id != p.held.value.id && p.held.value.id != item.id)
    requires other in WithItem(ShowHeld(p, Some(item.id)).snapshot.items, item)
    ensures IndexOf(p.snapshot.items, other.id).Some?
    ensures p.snapshot.items[IndexOf(p.snapshot.items, other.id).value] == other
  {
    hide *;
    InWithItem(ShowHeld(p, Some(item.id)).snapshot.items, item, other);
    if p.held.None? { NothingHeld(p, Some(item.id)); } else { OthersShown(p, item, other); }
    var k :| 0 <= k < |p.snapshot.items| && p.snapshot.items[k] == other;
    OrderedIsUnique(p);
    IndexIsUnique(p.snapshot.items, k);
  }

  lemma OthersShown(p: Projection, item: ActivityItem, other: ActivityItem)
    requires Ordered(p) && p.held.Some? && other.id != p.held.value.id && p.held.value.id != item.id
    requires other in ShowHeld(p, Some(item.id)).snapshot.items
    ensures other in p.snapshot.items
  {
    hide *;
    ShownItems(p, Some(item.id));
    InTail(ShowHeld(p, Some(item.id)).snapshot.items, p.snapshot.items + [p.held.value], other);
  }

  lemma InWithItem(items: seq<ActivityItem>, item: ActivityItem, other: ActivityItem)
    requires other in WithItem(items, item) && other.id != item.id
    ensures other in items
  {
  }

  lemma FreeStays(p: Projection, item: ActivityItem, id: string)
    requires Ordered(p) && Fits(p, item) && IsFree(p, id) && (id == item.id ==> item.turnId == CurrentTurn(p))
    ensures IsFree(Upsert(p, item), id)
  {
    hide Upsert, Ordered, Fits, CurrentTurn, MakesRoom;
    UpsertKeeps(p, item);
    ItemsLeft(p, item, id);
    match IndexOf(p.snapshot.items, id)
    case Some(i) => if MakesRoom(p, i) && id != item.id { RoomIsMade(p, item, i); }
    case None =>
  }

  /** An item the message held back evicts is gone when another one is put. */
  lemma RoomIsMade(p: Projection, item: ActivityItem, i: nat)
    requires Ordered(p) && Fits(p, item) && i < |p.snapshot.items| && MakesRoom(p, i)
    requires p.snapshot.items[i].id != item.id && Apart(p, p.snapshot.items[i].id)
    ensures IndexOf(Upsert(p, item).snapshot.items, p.snapshot.items[i].id).None?
  {
    hide *;
    var id := p.snapshot.items[i].id;
    var q := ShowHeld(p, Some(item.id));
    var r := PutItem(q, item);
    FitsApart(p, item);
    RoomParts(p, i);
    StaysExactly(p, i);
    ShowsHeld(p, Some(item.id));
    ShowsHeld(p, Some(id));
    ShowHeldKeeps(p, Some(item.id));
    KnownIfShown(p, item);
    if IndexOf(q.snapshot.items, item.id).Some? { PutKnown(q, item); } else { PutComes(q, item); }
    PutParts(q, item);
    EnforceKeeps(r);
    EnforcedTail(r);
    UpsertIs(p, item);
    var items := Enforce(r).snapshot.items;
    if IndexOf(items, id).Some? {
      var other := items[IndexOf(items, id).value];
      InTail(items, r.snapshot.items, other);
      InWithItem(q.snapshot.items, item, other);
    }
  }

  lemma RoomParts(p: Projection, i: nat)
    requires i < |p.snapshot.items| && MakesRoom(p, i) && Apart(p, p.snapshot.items[i].id)
    ensures p.held.Some? && IsOutside(p.snapshot.items[i], CurrentTurn(p)) && !Stays(p, i)
    ensures p.held.value.id != p.snapshot.items[i].id
  {
    hide Stays, CurrentTurn;
  }

  /** A free id under the current turn fits. */
  lemma FreeFits(p: Projection, item: ActivityItem)
    requires IsFree(p, item.id) && item.turnId == CurrentTurn(p)
    ensures Fits(p, item)
  {
  }

  // ----- Each operation

  lemma SameInOrder(p: Projection, q: Projection)
    requires Ordered(p) && SameOrder(p, q)
    ensures Ordered(q) && CurrentTurn(q) == CurrentTurn(p)
  {
    hide Ordered, SameOrder;
    SameOrderKeeps(p, q);
  }

  lemma UpsertInOrder(p: Projection, item: ActivityItem)
    requires Ordered(p) && Fits(p, item)
    ensures Ordered(Upsert(p, item)) && CurrentTurn(Upsert(p, item)) == CurrentTurn(p)
  {
    hide Ordered, Fits, CurrentTurn;
    UpsertKeeps(p, item);
  }

  lemma SetDetailInOrder(p: Projection, id: string, detail: Detail)
    requires Ordered(p)
    ensures var q := SetDetail(p, id, detail).0;
            && Ordered(q) && CurrentTurn(q) == CurrentTurn(p) && SameOrder(p, q) && q.users == p.users
            && q.snapshot == p.snapshot
  {
    hide Ordered, DetailSize;
    var q := SetDetail(p, id, detail).0;
    SameOrderKeeps(p, q);
  }

  lemma SettledFits(p: Projection, id: string, kind: ItemKind, block: DetailBlock)
    requires Settled(p, id)
    ensures Fits(p, TextItem(p, id, kind, block))
  {
    hide CurrentTurn, Bytes;
  }

  lemma SameFits(p: Projection, q: Projection, item: ActivityItem)
    requires Fits(p, item) && SameOrder(p, q)
    ensures Fits(q, item)
  {
  }

  lemma PutTextInOrder(p: Projection, id: string, kind: ItemKind, block: DetailBlock)
    requires Ordered(p) && Settled(p, id)
    ensures Ordered(PutTextBlock(p, id, kind, block)) && CurrentTurn(PutTextBlock(p, id, kind, block)) == CurrentTurn(p)
  {
    hide Ordered, SameOrder, Fits, TextItem, Upsert, CurrentTurn, BlockSize, SetDetail;
    var item := TextItem(p, id, kind, block);
    var q := SetDetail(p, id, Blocks([block], BlockSize(block))).0;
    SettledFits(p, id, kind, block);
    SetDetailInOrder(p, id, Blocks([block], BlockSize(block)));
    SameFits(p, q, item);
    UpsertInOrder(q, item);
  }

  // ----- User messages

  lemma LogPrefix(log: seq<Entry>, rest: seq<Entry>, gone: int, current: Option<string>)
    requires Contiguous(log + rest) && CurrentLast(log + rest, current) && TurnsClosed(log + rest, gone, current)
    ensures Contiguous(log) && CurrentLast(log, current) && TurnsClosed(log, gone, current)
    ensures TurnsIn(log) <= TurnsIn(log + rest)
  {
    forall i | 0 <= i < |log| ensures log[i] == (log + rest)[i] {
    }
  }

  lemma DropHeldKeeps(p: Projection)
    requires Ordered(p)
    ensures Ordered(p.(held := None))
  {
    hide UniqueIds, IsSuffix, ReplayName, Contiguous, CurrentLast, TurnsClosed, TurnsIn;
    var q := p.(held := None);
    assert Log(q) == p.inserted;
    LogPrefix(p.inserted, if p.held.Some? then [EntryOf(p.held.value)] else [], Gone(p), CurrentTurn(p));
  }

  lemma HoldKeeps(p: Projection, item: ActivityItem)
    requires Ordered(p) && p.held.None? && p.replay.Some?
    requires IndexOf(p.snapshot.items, item.id).None? && item.turnId == CurrentTurn(p)
    ensures Ordered(p.(held := Some(item)))
  {
    hide Contiguous, CurrentLast, TurnsClosed, TurnsIn, UniqueIds, ReplayName;
    var q := p.(held := Some(item));
    assert Log(p) == p.inserted && Log(q) == p.inserted + [EntryOf(item)];
    SuffixIsShorter(p.snapshot.items, p.inserted);
    AppendEntry(p.inserted, EntryOf(item), Gone(p), CurrentTurn(p));
    CurrentIsReplayed(p, EntryOf(item));
  }

  lemma UserFits(p: Projection, id: string, kind: ItemKind, block: DetailBlock)
    requires p.held.None?
    ensures Fits(p, TextItem(p, id, kind, block)) && TextItem(p, id, kind, block).id == id
    ensures IndexOf(p.snapshot.items, id).None? ==> TextItem(p, id, kind, block).turnId == CurrentTurn(p)
  {
    hide CurrentTurn, Bytes;
  }

  lemma StoreUserInOrder(p: Projection, id: string, user: Option<BlockStart>, block: DetailBlock, size: nat)
    requires Ordered(p)
    ensures var q := SetDetail(p.(users := p.users[id := user]), id, Blocks([block], size)).0;
            Ordered(q) && CurrentTurn(q) == CurrentTurn(p) && SameOrder(p, q) && q.snapshot == p.snapshot
  {
    hide Ordered, DetailSize;
    var q := SetDetail(p.(users := p.users[id := user]), id, Blocks([block], size)).0;
    SameOrderKeeps(p, q);
  }

  /** The state in which a user message is put, once its text is stored. */
  function Stored(p: Projection, id: string, user: Option<BlockStart>, block: DetailBlock): Projection {
    var q := ShowHeld(p, Some(id));
    SetDetail(q.(users := q.users[id := user]), id, Blocks([block], BlockSize(block) + UserSize(user))).0.(held := None)
  }

  lemma StoredInOrder(p: Projection, id: string, user: Option<BlockStart>, block: DetailBlock)
    requires Ordered(p)
    ensures var q, s := ShowHeld(p, Some(id)), Stored(p, id, user, block);
            && Ordered(s) && s.held.None? && s.replay == q.replay && s.snapshot == q.snapshot
  {
    hide Ordered, ShowHeld, SetDetail, BlockSize, UserSize, SameOrder, CurrentTurn;
    var q := ShowHeld(p, Some(id));
    ShowHeldKeeps(p, Some(id));
    var size := BlockSize(block) + UserSize(user);
    var r := SetDetail(q.(users := q.users[id := user]), id, Blocks([block], size)).0;
    StoreUserInOrder(q, id, user, block, size);
    SameItems(q, r);
    DropHeldKeeps(r);
  }

  lemma PutUserIs(p: Projection, id: string, user: Option<BlockStart>, block: DetailBlock, segments: seq<Segment>)
    requires CanShow(user, block)
    ensures var q, s := ShowHeld(p, Some(id)), Stored(p, id, user, block);
            var item := TextItem(q, id, UserMessage(segments), Shown(user, block).0);
            PutUserMessage(p, id, user, block, segments)
            == match ShowingOf(q, item, block, Shown(user, block).1)
               case HoldBack => s.(held := Some(item))
               case ShowNow => Upsert(s, item)
               case Hide => s
  {
    hide TextItem, Upsert, ShowHeld, BlockSize, UserSize, Shown, ShowingOf;
  }

  lemma HeldBack(p: Projection, item: ActivityItem, block: DetailBlock, removed: nat)
    requires ShowingOf(p, item, block, removed) == HoldBack
    ensures p.replay.Some? && IndexOf(p.snapshot.items, item.id).None?
  {
  }

  lemma PutUserInOrder(p: Projection, id: string, user: Option<BlockStart>, block: DetailBlock, segments: seq<Segment>)
    requires Ordered(p) && CanShow(user, block)
    ensures Ordered(PutUserMessage(p, id, user, block, segments))
  {
    hide Ordered, TextItem, Upsert, ShowHeld, SetDetail, Shown, BlockSize, UserSize, ShowingOf;
    hide PutUserMessage, Stored, CurrentTurn, Fits, IndexOf;
    var q, s := ShowHeld(p, Some(id)), Stored(p, id, user, block);
    StoredInOrder(p, id, user, block);
    PutUserIs(p, id, user, block, segments);
    var text := Shown(user, block).0;
    var item := TextItem(q, id, UserMessage(segments), text);
    SameTextItem(q, s, id, UserMessage(segments), text);
    UserFits(s, id, UserMessage(segments), text);
    match ShowingOf(q, item, block, Shown(user, block).1)
    case HoldBack =>
      HeldBack(q, item, block, Shown(user, block).1);
      HoldKeeps(s, item);
    case ShowNow => UpsertInOrder(s, item);
    case Hide =>
  }

  lemma SameItems(p: Projection, q: Projection)
    requires SameOrder(p, q)
    ensures q.snapshot.items == p.snapshot.items && q.replay == p.replay && q.held == p.held
    ensures q.compactBytes == p.compactBytes && q.retention == p.retention
  {
  }

  lemma SameTextItem(p: Projection, q: Projection, id: string, kind: ItemKind, block: DetailBlock)
    requires q.snapshot.items == p.snapshot.items && q.snapshot.turn == p.snapshot.turn && q.replay == p.replay
    ensures TextItem(q, id, kind, block) == TextItem(p, id, kind, block) && CurrentTurn(q) == CurrentTurn(p)
  {
    hide Bytes;
  }

  // ----- Turns

  lemma BeginInOrder(p: Projection, turnId: string, text: string, segments: seq<Segment>)
    requires Ordered(p) && !TurnActive(p) && p.replay.None? && turnId !in TurnsIn(Log(p))
    ensures Ordered(BeginTurn(p, turnId, text, segments))
  {
    hide Ordered, TurnsIn, PutUserMessage, Extend, StatusOf;
    var q := SetTurn(p.(open := None), Some(turnId), InTurn, None);
    BeginKeeps(p, turnId);
    var limit := p.retention.itemDetail;
    ExtendHolds(None, TextBlock(""), text, limit);
    PutUserInOrder(q, "user:" + turnId, Extend(None, TextBlock(""), text, limit).0, Extend(None, TextBlock(""), text, limit).1, segments);
  }

  lemma CancellingInOrder(p: Projection)
    requires Ordered(p)
    ensures Ordered(CancellingTurn(p))
  {
    hide Ordered, StatusOf;
    if p.snapshot.turn.phase == InTurn {
      SameTurnKeeps(p, Cancelling);
    }
  }

  lemma RefreshInOrder(p: Projection)
    requires Ordered(p)
    ensures var q := RefreshStatus(p);
            && Ordered(q) && CurrentTurn(q) == CurrentTurn(p) && q.replay == p.replay && q.nextLocal == p.nextLocal
            && q.snapshot.turn.turnId == p.snapshot.turn.turnId && q.snapshot.turn.phase == p.snapshot.turn.phase
            && q.users == p.users && q.held == p.held && q.snapshot.items == p.snapshot.items && q.retention == p.retention
            && q.compactBytes == p.compactBytes
  {
    hide Ordered, StatusOf;
    RefreshKeeps(p);
  }

  lemma SameFree(p: Projection, q: Projection, id: string)
    requires IsFree(p, id) && q.held == p.held && q.snapshot.items == p.snapshot.items
    requires CurrentTurn(q) == CurrentTurn(p) && q.compactBytes == p.compactBytes && q.retention == p.retention
    ensures IsFree(q, id)
  {
  }

  /** What closing the pending interaction keeps. */
  ghost predicate Closes(p: Projection, q: Projection) {
    && Ordered(q) && CurrentTurn(q) == CurrentTurn(p) && q.nextLocal == p.nextLocal
    && q.snapshot.turn.turnId == p.snapshot.turn.turnId && q.snapshot.turn.phase == p.snapshot.turn.phase
    && q.retention == p.retention
    && forall id :: IsFree(p, id) ==> IsFree(q, id)
  }

  lemma ResolveInOrder(p: Projection, id: string, state: InteractionState, answer: Option<Answer>)
    requires Ordered(p) && PendingFree(p)
    ensures Closes(p, ResolvePending(p, id, state, answer))
  {
    hide Ordered, Upsert, CurrentTurn, IsFree, RefreshStatus, InteractionRecord, SameOrder;
    if p.snapshot.pending.Some? && p.snapshot.pending.value.id == id {
      var pending := p.snapshot.pending.value.(state := state);
      var q := Emit(p, PendingChange(pending));
      PendingSame(p, pending);
      SameInOrder(p, q);
      SameItems(p, q);
      var record := InteractionRecord(p, pending, state, answer);
      RecordIs(p, pending, state, answer);
      SameFree(p, q, id);
      RecordInOrder(q, record);
      UpsertParts(q, record);
      forall other | IsFree(p, other) ensures IsFree(RefreshStatus(Upsert(q, record)), other) {
        SameFree(p, q, other);
      }
    }
  }

  lemma PendingSame(p: Projection, pending: PendingInteraction)
    ensures var q := Emit(p, PendingChange(pending));
            && SameOrder(p, q) && q.users == p.users && q.details == p.details && q.nextLocal == p.nextLocal
            && q.snapshot.turn == p.snapshot.turn && q.retention == p.retention
  {
  }

  lemma RecordIs(p: Projection, pending: PendingInteraction, state: InteractionState, answer: Option<Answer>)
    ensures InteractionRecord(p, pending, state, answer).id == pending.id
    ensures InteractionRecord(p, pending, state, answer).turnId == CurrentTurn(p)
  {
    hide Bytes, CaptionOf, CurrentTurn;
  }

  lemma RecordInOrder(p: Projection, record: ActivityItem)
    requires Ordered(p) && IsFree(p, record.id) && record.turnId == CurrentTurn(p)
    ensures var q := RefreshStatus(Upsert(p, record));
            && Ordered(q) && CurrentTurn(q) == CurrentTurn(p) && q.nextLocal == p.nextLocal
            && q.snapshot.turn.turnId == p.snapshot.turn.turnId && q.snapshot.turn.phase == p.snapshot.turn.phase
            && q.retention == p.retention && forall id :: IsFree(p, id) ==> IsFree(q, id)
  {
    hide Ordered, Upsert, CurrentTurn, IsFree, RefreshStatus, Fits;
    FreeFits(p, record);
    UpsertInOrder(p, record);
    UpsertParts(p, record);
    var q := Upsert(p, record);
    RefreshInOrder(q);
    forall id | IsFree(p, id) ensures IsFree(RefreshStatus(q), id) {
      FreeStays(p, record, id);
      SameFree(q, RefreshStatus(q), id);
    }
  }

  lemma ClosePendingInOrder(p: Projection, state: InteractionState)
    requires Ordered(p) && PendingFree(p)
    ensures Closes(p, ClosePending(p, state))
  {
    hide Ordered, IsFree, CurrentTurn, ResolvePending;
    match p.snapshot.pending
    case Some(pending) => ResolveInOrder(p, pending.id, state, None);
    case None =>
  }

  lemma CountedInOrder(p: Projection, scope: string, kind: string)
    requires Ordered(p)
    ensures var q := NextLocalId(p, scope, kind).0;
            && Ordered(q) && CurrentTurn(q) == CurrentTurn(p) && q.snapshot == p.snapshot
            && q.held == p.held && forall id :: (IsFree(p, id) ==> IsFree(q, id)) && (Settled(p, id) ==> Settled(q, id))
  {
    hide Ordered, CurrentTurn, Decimal;
    var q := NextLocalId(p, scope, kind).0;
    SameInOrder(p, q);
  }

  lemma PutTextFree(p: Projection, id: string, kind: ItemKind, block: DetailBlock, other: string)
    requires Ordered(p) && p.held.None? && IsFree(p, other)
    ensures IsFree(PutTextBlock(p, id, kind, block), other)
    ensures PutTextBlock(p, id, kind, block).snapshot.turn == p.snapshot.turn
  {
    hide SameOrder, Fits, Upsert, CurrentTurn, BlockSize, IsFree, SetDetail, TextItem;
    var item := TextItem(p, id, kind, block);
    var q := SetDetail(p, id, Blocks([block], BlockSize(block))).0;
    UserFits(p, id, kind, block);
    FreeTextItem(p, id, kind, block, other);
    SetDetailInOrder(p, id, Blocks([block], BlockSize(block)));
    SameFits(p, q, item);
    SameItems(p, q);
    SameFree(p, q, other);
    FreeStays(q, item, other);
    UpsertParts(q, item);
  }

  lemma FreeTextItem(p: Projection, id: string, kind: ItemKind, block: DetailBlock, other: string)
    requires p.held.None? && IsFree(p, other)
    ensures id == other ==> TextItem(p, id, kind, block).turnId == CurrentTurn(p)
  {
    hide CurrentTurn, Bytes;
  }

  lemma PutErrorInOrder(p: Projection, turnId: string, error: Option<string>, other: string)
    requires Ordered(p) && p.held.None? && IsFree(p, other)
    ensures var q := PutError(p, turnId, error);
            Ordered(q) && CurrentTurn(q) == CurrentTurn(p) && IsFree(q, other) && q.snapshot.turn == p.snapshot.turn
  {
    hide Ordered, CurrentTurn, Decimal, IsFree, PutTextBlock, ExcerptOf;
    match error
    case Some(message) =>
      var id := LocalId(p, turnId, "error");
      var q := NextLocalId(p, turnId, "error").0;
      CountedInOrder(p, turnId, "error");
      var block := ExcerptOf(message, q.retention.itemDetail);
      PutTextInOrder(q, id, ErrorItem, block);
      PutTextFree(q, id, ErrorItem, block, other);
    case None =>
  }

  lemma ActiveHoldsNone(p: Projection)
    requires Ordered(p) && TurnActive(p)
    ensures p.held.None?
  {
  }

  lemma FinishInOrder(p: Projection, turnId: string, reason: StopReason, error: Option<string>)
    requires Ordered(p) && FinishFree(p, turnId)
    ensures Ordered(FinishTurn(p, turnId, reason, error))
  {
    hide Ordered, CurrentTurn, IsFree, ClosePending, PutError, Upsert, SetTurn, Fits, Decimal;
    if IsCurrent(p, turnId) {
      ClosePendingInOrder(p, PendingOutcome(reason));
      var q := ClosePending(p, PendingOutcome(reason)).(open := None);
      ClosedInOrder(ClosePending(p, PendingOutcome(reason)));
      ActiveHoldsNone(q);
      var outcome := OutcomeItem(turnId, reason);
      PutErrorInOrder(q, turnId, error, outcome.id);
      var r := PutError(q, turnId, error);
      ActiveTurn(p, turnId);
      FreeFits(r, outcome);
      UpsertInOrder(r, outcome);
      UpsertParts(r, outcome);
      EndInOrder(Upsert(r, outcome), turnId, reason);
    }
  }

  lemma ActiveTurn(p: Projection, turnId: string)
    requires IsCurrent(p, turnId)
    ensures CurrentTurn(p) == Some(turnId)
  {
  }

  lemma ClosedInOrder(p: Projection)
    requires Ordered(p)
    ensures var q := p.(open := None);
            && Ordered(q) && CurrentTurn(q) == CurrentTurn(p) && q.snapshot == p.snapshot && q.nextLocal == p.nextLocal
            && forall id :: IsFree(p, id) ==> IsFree(q, id)
  {
    hide Ordered, CurrentTurn;
    SameInOrder(p, p.(open := None));
  }

  lemma EndInOrder(p: Projection, turnId: string, reason: StopReason)
    requires Ordered(p) && TurnActive(p)
    ensures Ordered(SetTurn(p, Some(turnId), NoTurn, Some(reason)))
  {
    hide Ordered, StatusOf;
    EndKeeps(p, Some(turnId), reason);
  }

  lemma InterruptInOrder(p: Projection)
    requires Ordered(p) && Allowed(p, Action.Interrupt)
    ensures Ordered(InterruptTurn(p))
  {
    hide Ordered, CurrentTurn, FinishFree, FinishTurn, ClosePending, PendingFree;
    match CurrentTurn(p)
    case Some(turnId) => FinishInOrder(p, turnId, TurnInterrupted, None);
    case None => ClosePendingInOrder(p, Expired);
  }

  lemma PendInOrder(p: Projection, pending: PendingInteraction)
    requires Ordered(p)
    ensures Ordered(SetPending(p, pending))
  {
    hide Ordered, RefreshStatus, CurrentTurn;
    SameInOrder(p, Emit(p, PendingChange(pending)));
    RefreshInOrder(Emit(p, PendingChange(pending)));
  }

  lemma EndReplayInOrder(p: Projection)
    requires Ordered(p)
    ensures Ordered(EndReplay(p))
  {
    hide Ordered, ShowHeld, CurrentTurn;
    ShowHeldKeeps(p, None);
    ReplayOver(ShowHeld(p, None));
  }

  lemma ReplayOver(p: Projection)
    requires Ordered(p) && p.held.None?
    ensures Ordered(p.(replay := None, open := None))
  {
    hide UniqueIds, IsSuffix, Contiguous, TurnsIn, ReplayName;
    var q := p.(replay := None, open := None);
    assert Log(q) == Log(p);
  }

  // ----- What the agent sends

  lemma NextReplayInOrder(p: Projection)
    requires Ordered(p) && p.replay.Some?
    ensures Ordered(NextReplayTurn(p))
  {
    hide Ordered, ReplayName;
    NextReplayKeeps(p);
  }

  lemma NamedInOrder(p: Projection, role: Role, messageId: Option<string>)
    requires Ordered(p)
    ensures var (q, id) := MessageIdOf(p, role, messageId);
            && Ordered(q.(open := Some((role, id)))) && id == MessageId(p, role, messageId)
            && (Settled(p, id) ==> Settled(q.(open := Some((role, id))), id))
  {
    hide Ordered, CurrentTurn, Decimal;
    var (q, id) := MessageIdOf(p, role, messageId);
    SameInOrder(p, q.(open := Some((role, id))));
  }

  lemma AddressedInOrder(p: Projection, role: Role, messageId: Option<string>)
    requires Ordered(p) && (role == User || Settled(p, MessageId(p, role, messageId)))
    ensures Ordered(Addressed(p, role, messageId).0)
    ensures role == User || Settled(Addressed(p, role, messageId).0, Addressed(p, role, messageId).1)
  {
    hide Ordered, NextReplayTurn, Continues, MessageIdOf, MessageId, Settled;
    var q := if role == User && p.replay.Some? && !Continues(p, messageId) then NextReplayTurn(p) else p;
    if q != p { NextReplayInOrder(p); }
    NamedInOrder(q, role, messageId);
  }

  lemma MediaInOrder(p: Projection, id: string, parts: seq<MediaPart>, offset: nat)
    requires Ordered(p) && Settled(p, id)
    ensures Ordered(ExtendMedia(p, id, parts, offset).0) && Settled(ExtendMedia(p, id, parts, offset).0, id)
  {
    hide Ordered, CurrentTurn, DataSize, HoldAll, NewSegments, MediaOf;
    SameInOrder(p, ExtendMedia(p, id, parts, offset).0);
  }

  lemma AppendInOrder(p: Projection, role: Role, id: string, text: string, segments: seq<Segment>, parts: seq<MediaPart>)
    requires Ordered(p) && !Misfits(p, role, id, text) && (role == User || Settled(p, id))
    ensures Ordered(AppendTo(p, role, id, text, segments, parts))
  {
    hide Ordered, Settled, KnownText, Extend, PutUserMessage, ExtendMedia, PutTextBlock, UserOf;
    match KnownText(p, id)
    case None =>
    case Some(known) =>
      match role
      case User =>
        var limit := p.retention.itemDetail;
        SameInOrder(p, p.(users := p.users - {id}));
        var (user, block) := Extend(UserOf(p, id), known, text, limit);
        PutUserInOrder(p.(users := p.users - {id}), id, user, block, segments);
      case Agent =>
        MediaInOrder(p, id, parts, PlaceAfter(known, text));
        var (q, media) := ExtendMedia(p, id, parts, PlaceAfter(known, text));
        PutTextInOrder(q, id, AgentMessage(media), ExtendText(known, text, NO_LIMIT));
      case Thought =>
        PutTextInOrder(p, id, Reasoning, ExtendText(known, text, p.retention.itemDetail));
  }

  lemma ToolFits(p: Projection, update: ToolUpdate)
    requires Settled(p, update.id)
    ensures Fits(p, ToolItem(p, update))
  {
    hide CurrentTurn, Bytes;
  }

  lemma ToolReady(p: Projection, update: ToolUpdate)
    requires Ordered(p) && Settled(p, update.id)
    ensures var q := ToolMedia(p.(open := None), update);
            Ordered(q) && SameOrder(p, q) && Settled(q, update.id)
  {
    hide Ordered, CurrentTurn, DataSize, HoldAll;
    SameInOrder(p, ToolMedia(p.(open := None), update));
  }

  lemma ToolParts(p: Projection, update: ToolUpdate)
    ensures var q := ToolMedia(p.(open := None), update);
            var r := match update.blocks case Some(blocks) => StoreDetail(q, update.id, blocks) case None => q;
            UpsertTool(p, update) == Upsert(r, ToolItem(p, update))
  {
    hide ToolMedia, ToolItem, StoreDetail, Upsert;
  }

  lemma ToolInOrder(p: Projection, update: ToolUpdate)
    requires Ordered(p) && Settled(p, update.id)
    ensures Ordered(UpsertTool(p, update))
  {
    hide *;
    var q := ToolMedia(p.(open := None), update);
    ToolReady(p, update);
    ToolParts(p, update);
    ToolFits(p, update);
    var item := ToolItem(p, update);
    SameFits(p, q, item);
    match update.blocks
    case Some(blocks) =>
      var r := StoreDetail(q, update.id, blocks);
      StoreInOrder(q, update.id, blocks);
      SameFits(q, r, item);
      UpsertInOrder(r, item);
    case None =>
      UpsertInOrder(q, item);
  }

  lemma StoreInOrder(p: Projection, id: string, blocks: seq<DetailBlock>)
    requires Ordered(p) && Settled(p, id)
    ensures Ordered(StoreDetail(p, id, blocks)) && SameOrder(p, StoreDetail(p, id, blocks))
  {
    hide Ordered, SetDetail, BoundedBlocks, SameOrder;
    var bounded := match BoundedBlocks(blocks, p.retention.itemDetail)
                   case Kept(kept, size) => Blocks(kept, size)
                   case TooLarge => TooLargeDetail;
    SetDetailInOrder(p, id, bounded);
  }

  lemma PutFreeInOrder(p: Projection, item: ActivityItem)
    requires Ordered(p) && IsFree(p, item.id) && item.turnId == CurrentTurn(p)
    ensures Ordered(Upsert(p, item))
  {
    hide Ordered, CurrentTurn, IsFree, Upsert;
    FreeFits(p, item);
    UpsertInOrder(p, item);
  }

  lemma PlanInOrder(p: Projection, entries: seq<string>)
    requires Ordered(p) && Allowed(p, NewPlan(entries))
    ensures Ordered(PutPlan(p, entries))
  {
    hide Ordered, CurrentTurn, Upsert;
    var turn := CurrentTurn(p);
    ClosedInOrder(p);
    PutFreeInOrder(p.(open := None), ActivityItem("plan:" + turn.UnwrapOr("session"), turn, Plan(entries), None, "", false));
  }

  lemma SettingsInOrder(p: Projection, settings: seq<Setting>)
    requires Ordered(p)
    ensures var q := SetSettings(p, settings);
            && Ordered(q) && CurrentTurn(q) == CurrentTurn(p) && q.nextLocal == p.nextLocal
            && forall id :: Settled(p, id) ==> Settled(q, id)
  {
    hide Ordered, CurrentTurn;
    SameInOrder(p, SetSettings(p, settings));
  }

  lemma SettingItemInOrder(p: Projection, settings: seq<Setting>, scope: string, kind: ItemKind, text: string)
    requires Ordered(p) && Settled(p, LocalId(p, "session", scope))
    ensures Ordered(PutSettingItem(p, settings, scope, kind, text))
  {
    hide Ordered, CurrentTurn, IsFree, Settled, SetSettings, Decimal, PutTextBlock, ExcerptOf;
    SettingsInOrder(p, settings);
    var q := SetSettings(p, settings);
    CountedInOrder(q, "session", scope);
    var r := NextLocalId(q, "session", scope).0;
    var id := LocalId(p, "session", scope);
    PutTextInOrder(r, id, kind, ExcerptOf(text, r.retention.itemDetail));
  }

  lemma GenericInOrder(p: Projection, what: string)
    requires Ordered(p) && IsFree(p, LocalId(p, "session", "generic"))
    ensures Ordered(PutGeneric(p, what))
  {
    hide Ordered, CurrentTurn, IsFree, Decimal, Upsert;
    CountedInOrder(p, "session", "generic");
    var q := NextLocalId(p, "session", "generic").0;
    PutFreeInOrder(q, ActivityItem(LocalId(p, "session", "generic"), CurrentTurn(q), Generic(what), None, "", false));
  }

  lemma ReleaseTextInOrder(p: Projection, id: string)
    requires Ordered(p)
    ensures var q := SetDetail(if id in p.users then p.(users := p.users[id := None]) else p, id, ReleasedDetail).0;
            Ordered(q) && SameOrder(p, q) && q.snapshot == p.snapshot
  {
    hide Ordered, DetailSize;
    var q := SetDetail(if id in p.users then p.(users := p.users[id := None]) else p, id, ReleasedDetail).0;
    SameOrderKeeps(p, q);
  }

  lemma ReleaseMediaInOrder(p: Projection, id: string)
    requires Ordered(p)
    ensures var q := ReleaseMedia(p, id).0;
            Ordered(q) && SameOrder(p, q) && q.snapshot == p.snapshot
  {
    hide Ordered, DataSize, ReleasedAll, CurrentTurn;
    SameInOrder(p, ReleaseMedia(p, id).0);
  }

  lemma ReleaseItemInOrder(p: Projection, id: string, textHeld: bool)
    requires Ordered(p)
    ensures Ordered(ReleaseItem(p, id, textHeld).0)
  {
    hide Ordered, DetailSize, SetDetail, ReleaseMedia, SameOrder;
    var users := if id in p.users then p.(users := p.users[id := None]) else p;
    ReleaseTextInOrder(p, id);
    ReleaseMediaInOrder(SetDetail(users, id, ReleasedDetail).0, id);
    ReleaseMediaInOrder(p, id);
  }

  lemma {:induction false} ReleaseInOrder(p: Projection, candidates: seq<(string, bool)>, need: nat, freed: nat)
    requires Ordered(p)
    ensures Ordered(ReleaseEach(p, candidates, need, freed).0)
    decreases |candidates|
  {
    hide Ordered, ReleaseItem;
    if candidates != [] && freed < need {
      var (q, more) := ReleaseItem(p, candidates[0].0, candidates[0].1);
      ReleaseItemInOrder(p, candidates[0].0, candidates[0].1);
      ReleaseInOrder(q, candidates[1..], need, freed + more);
    }
  }

  // ----- Any run

  /** A change of neither items nor the turn nor the request. */
  predicate IsAside(change: Change) {
    || change.ConnectionChange? || change.WriterChange? || change.SettingsChange? || change.CommandsChange?
    || change.UsageChange? || change.TitleChange?
  }

  lemma AsideInOrder(p: Projection, change: Change)
    requires Ordered(p) && IsAside(change)
    ensures Ordered(Emit(p, change))
  {
    hide Ordered, CurrentTurn;
    SameInOrder(p, Emit(p, change));
  }

  /** An operation that changes the snapshot aside from its items, if at all. */
  predicate IsSetter(action: Action) {
    action.Connected? || action.WrittenBy? || action.Declared? || action.Offered? || action.Used? || action.Titled?
  }

  lemma SetterEmits(p: Projection, action: Action) returns (change: Change)
    requires IsSetter(action) && !Panics(p, action)
    ensures IsAside(change) && (Step(p, action) == p || Step(p, action) == Emit(p, change))
  {
    hide Emit;
    match action
    case Connected(connection) => change := ConnectionChange(connection);
    case WrittenBy(writer) => change := WriterChange(writer);
    case Declared(settings) => change := SettingsChange(settings);
    case Offered(commands) => change := CommandsChange(commands);
    case Used(usage) => change := UsageChange(usage);
    case Titled(title) => change := TitleChange(title);
  }

  lemma SettersInOrder(p: Projection, action: Action)
    requires Ordered(p) && IsSetter(action) && !Panics(p, action)
    ensures Ordered(Step(p, action))
  {
    hide *;
    var change := SetterEmits(p, action);
    AsideInOrder(p, change);
  }

  lemma StepKeeps(p: Projection, action: Action)
    requires Ordered(p) && Allowed(p, action) && !Panics(p, action)
    ensures Ordered(Step(p, action))
  {
    hide Ordered, TurnsIn, IsFree, Settled, FinishFree, PendingFree, LocalId, MessageId, CurrentTurn;
    hide BeginTurn, CancellingTurn, FinishTurn, InterruptTurn, SetPending, ResolvePending, EndReplay, Misfits;
    hide UpsertTool, PutPlan, PutSettingItem, PutGeneric, ReleaseEach, Candidates, AppendTo, Addressed;
    match action
    case Begin(turnId, text, segments) => if !TurnActive(p) { BeginInOrder(p, turnId, text, segments); }
    case Cancel => CancellingInOrder(p);
    case Finish(turnId, reason, error) => FinishInOrder(p, turnId, reason, error);
    case Interrupt => InterruptInOrder(p);
    case Pend(pending) => PendInOrder(p, pending);
    case Resolve(id, state, answer) => ResolveInOrder(p, id, state, answer);
    case CompleteReplay => EndReplayInOrder(p);
    case Message(role, messageId, text, segments, parts) =>
      AddressedInOrder(p, role, messageId);
      AppendInOrder(Addressed(p, role, messageId).0, role, Addressed(p, role, messageId).1, text, segments, parts);
    case Tool(update) => ToolInOrder(p, update);
    case NewPlan(entries) => PlanInOrder(p, entries);
    case ModeIs(settings, mode) => SettingItemInOrder(p, settings, "mode", ModeChange, mode);
    case ConfigIs(settings) => SettingItemInOrder(p, settings, "config", ConfigChange, "");
    case Other(what) => GenericInOrder(p, what);
    case Release(need) => ReleaseInOrder(p, Candidates(p.snapshot.items, CurrentTurn(p)), need, 0);
    case Look(_) =>
    case _ => SettersInOrder(p, action);
  }

  /** Over any run in which ids keep apart, the items stay the last of those
      inserted, turns stand together, no turn with evicted items goes on, and
      the markers count what was evicted. */
  lemma {:induction false} RunIsOrdered(connection: Connection, history: HistoryState, replay: bool, writer: WriterState,
                                        retention: Retention, actions: seq<Action>)
    requires AllAllowed(NewProjection(connection, history, replay, writer, retention), actions)
    ensures match Run(NewProjection(connection, history, replay, writer, retention), actions)
            case Some(p) => Ordered(p)
            case None => true
  {
    hide Ordered, Step, Allowed, Panics;
    var p := NewProjection(connection, history, replay, writer, retention);
    if actions == [] {
      NewIsInOrder(connection, history, replay, writer, retention);
    } else {
      RunIsOrdered(connection, history, replay, writer, retention, actions[..|actions| - 1]);
      match Run(p, actions[..|actions| - 1])
      case Some(q) => if !Panics(q, actions[|actions| - 1]) { StepKeeps(q, actions[|actions| - 1]); }
      case None =>
    }
  }

  lemma NewIsInOrder(connection: Connection, history: HistoryState, replay: bool, writer: WriterState, retention: Retention)
    ensures Ordered(NewProjection(connection, history, replay, writer, retention))
  {
  }
}
