/** What the items of a session say and what a lookup of their detail answers:
    tool calls, plans, requests, settings. `projection.rs`. */
module ItemContents {
  import opened Text
  import opened DetailText
  import opened UserTexts
  import opened Activity
  import opened Projection
  import opened TurnRetention
  import opened Survival
  import opened ProjectionRuns
  import opened DetailBound
  import opened Timeline

  // ----- Tool calls

  function KnownItem(p: Projection, id: string): Option<ActivityItem> {
    match IndexOf(p.snapshot.items, id) case Some(i) => Some(p.snapshot.items[i]) case None => None
  }

  /** `item` is `known` updated: what the update tells it has, what the update
      leaves out stays as it was, and a new one is pending. */
  ghost predicate Merges(item: ActivityItem, known: Option<ActivityItem>, update: ToolUpdate, current: Option<string>) {
    && item.id == update.id && item.kind == update.kind && item.turnId == current
    && (update.status.Some? ==> item.status == update.status)
    && (update.status.None? ==> item.status == if known.Some? then known.value.status else Some(ItemPending))
    && (update.title.Some? ==> item.summary == Bounded(update.title.value, SUMMARY_LIMIT))
    && (update.title.None? ==> item.summary == if known.Some? then known.value.summary else "")
    && (update.blocks.Some? ==> (item.hasDetail <==> update.blocks.value != []))
    && (update.blocks.None? ==> (item.hasDetail <==> known.Some? && known.value.hasDetail))
  }

  lemma ToolMerges(p: Projection, update: ToolUpdate)
    requires Spared(p, update.id) && CurrentTurn(p).Some?
    ensures Merges(ToolItem(p, update), KnownItem(p, update.id), update, CurrentTurn(p))
    ensures ToolItem(p, update).id == update.id && !IsOutside(ToolItem(p, update), CurrentTurn(p))
  {
    hide CurrentTurn, Bytes;
    var known := IndexOf(p.snapshot.items, update.id);
    assert known.Some? ==> p.snapshot.items[known.value] in p.snapshot.items;
  }

  /** What an update of a tool call in the current turn leaves: its item merged;
      its detail as the update has it, refused only for the bound, else as it
      was. */
  lemma ToolShows(p: Projection, update: ToolUpdate) returns (item: ActivityItem)
    requires Spared(p, update.id) && CurrentTurn(p).Some?
    ensures var q := UpsertTool(p, update);
            && item in q.snapshot.items && Merges(item, KnownItem(p, update.id), update, CurrentTurn(p))
            && match update.blocks
               case Some(blocks) => update.id in q.details && StoredFor(q.details[update.id], blocks, p.retention.itemDetail)
               case None => TextStays(p, q, update.id)
  {
    hide Upsert, ToolItem, CurrentTurn, Spared, HoldAll, DataSize, SetDetail, Merges, IsOutside, StoredFor, BoundedBlocks;
    ToolMerges(p, update);
    item := ToolItem(p, update);
    var q := ToolMedia(p.(open := None), update);
    var r := match update.blocks case Some(blocks) => StoreDetail(q, update.id, blocks) case None => q;
    ToolStores(q, update);
    SameCurrentTurn(p, r);
    SameItemsSpared(p, r, update.id);
    UpsertShows(r, item);
  }

  /** Detail stored for `blocks`: they themselves within the bound, and beyond it
      none or what leaves less than 8 bytes of the bound unused. */
  ghost predicate StoredFor(detail: Detail, blocks: seq<DetailBlock>, limit: nat) {
    match detail
    case Blocks(kept, size) =>
      && size == TotalSize(kept) <= limit
      && if TotalSize(blocks) <= limit then kept == blocks
         else kept != [] && Describes(kept[0], Lines(blocks)) && limit < size + 8
    case TooLargeDetail =>
      && limit < TotalSize(blocks)
      && (|| (exists i :: 0 <= i < |blocks| && !blocks[i].TextBlock? && !blocks[i].Terminal?)
          || !HasText(blocks) || limit <= TerminalBytes(blocks))
    case ReleasedDetail => false
  }

  lemma ToolStores(p: Projection, update: ToolUpdate)
    ensures match update.blocks
            case Some(blocks) =>
              var q := StoreDetail(p, update.id, blocks);
              && update.id in q.details && StoredFor(q.details[update.id], blocks, p.retention.itemDetail)
              && q.snapshot == p.snapshot && q.replay == p.replay
            case None => true
  {
    hide BoundedBlocks, TotalSize, Describes, Lines, HasText, TerminalBytes, DetailSize;
    match update.blocks
    case Some(blocks) =>
      BoundedExactly(blocks, p.retention.itemDetail);
      BoundedIsWithin(blocks, p.retention.itemDetail);
    case None =>
  }

  // ----- Plans

  /** A plan of the current turn is its one plan item, in the place of any the
      turn had before. */
  lemma PlanShows(p: Projection, entries: seq<string>)
    requires Ordered(p) && CurrentTurn(p).Some? && Spared(p, "plan:" + CurrentTurn(p).value)
    requires p.held.Some? ==> p.held.value.id != "plan:" + CurrentTurn(p).value
    ensures var q, id := PutPlan(p, entries), "plan:" + CurrentTurn(p).value;
            && (exists item :: item in q.snapshot.items && item.id == id && item.turnId == CurrentTurn(p)
                               && item.kind == Plan(entries))
            && (forall item :: item in q.snapshot.items && item.id == id ==> item.kind == Plan(entries))
  {
    hide Ordered, Upsert, CurrentTurn, Spared, UniqueIds, Untouched, IsOutside, Fits, SameOrder;
    var id := "plan:" + CurrentTurn(p).value;
    var item := ActivityItem(id, CurrentTurn(p), Plan(entries), None, "", false);
    var r := p.(open := None);
    SameCurrentTurn(p, r);
    SameItemsSpared(p, r, id);
    CurrentIsInside(item, CurrentTurn(p));
    UpsertShows(r, item);
    SparedFits(p, item);
    ClosedInOrder(p);
    OpenFits(p, item);
    UpsertKeeps(r, item);
    OrderedIsUnique(Upsert(r, item));
    var items := Upsert(r, item).snapshot.items;
    forall other | other in items && other.id == id ensures other == item {
      SameId(items, other, item);
    }
  }

  lemma SparedFits(p: Projection, item: ActivityItem)
    requires Spared(p, item.id) && item.turnId == CurrentTurn(p) && CurrentTurn(p).Some? && Apart(p, item.id)
    ensures Fits(p, item)
  {
    hide CurrentTurn, Stays, TurnShown;
    var known := IndexOf(p.snapshot.items, item.id);
    assert known.Some? ==> p.snapshot.items[known.value] in p.snapshot.items;
  }

  lemma OpenFits(p: Projection, item: ActivityItem)
    requires Fits(p, item)
    ensures Fits(p.(open := None), item)
  {
    SameFits(p, p.(open := None), item);
  }

  // ----- Requests

  /** The item of a resolved request: its state, and the caption of the option
      chosen, if the answer chose one the request offered. */
  ghost predicate Records(item: ActivityItem, pending: PendingInteraction, turn: Option<string>, state: InteractionState,
                          answer: Option<Answer>) {
    && item.id == pending.id && item.turnId == turn && item.summary == Bounded(pending.title, SUMMARY_LIMIT)
    && item.kind.Interaction? && item.kind.request == pending.kind && item.kind.state == state
    && item.kind.toolCallId == pending.toolCallId && (item.kind.declined <==> answer == Some(Decline))
    && match answer
       case Some(ChooseOption(id)) =>
         if exists o :: o in pending.options && o.id == id
         then exists i :: 0 <= i < |pending.options| && pending.options[i].id == id
                          && item.kind.option == Some(pending.options[i].caption)
                          && forall j :: 0 <= j < i ==> pending.options[j].id != id
         else item.kind.option.None?
       case _ => item.kind.option.None?
  }

  lemma {:induction false} CaptionIsFirst(options: seq<InteractionOption>, id: string)
    ensures match CaptionOf(options, id)
            case Some(caption) => exists i :: 0 <= i < |options| && options[i].id == id && caption == options[i].caption
                                              && forall j :: 0 <= j < i ==> options[j].id != id
            case None => forall o :: o in options ==> o.id != id
  {
    if options != [] && options[0].id != id {
      CaptionIsFirst(options[1..], id);
      if CaptionOf(options[1..], id).Some? {
        var i :| 0 <= i < |options| - 1 && options[1..][i].id == id && CaptionOf(options[1..], id).value == options[1..][i].caption
                 && forall j :: 0 <= j < i ==> options[1..][j].id != id;
        assert options[i + 1] == options[1..][i];
        forall j | 0 <= j < i + 1 ensures options[j].id != id {
          if j > 0 { assert options[j] == options[1..][j - 1]; }
        }
      }
    }
  }

  lemma RecordIsRight(p: Projection, pending: PendingInteraction, state: InteractionState, answer: Option<Answer>)
    ensures Records(InteractionRecord(p, pending.(state := state), state, answer), pending, CurrentTurn(p), state, answer)
  {
    hide Bytes, CurrentTurn, CaptionOf;
    if answer.Some? && answer.value.ChooseOption? { CaptionIsFirst(pending.options, answer.value.optionId); }
  }

  /** Within a turn, a resolved request is in the timeline with how it ended and
      the caption of what was chosen. */
  lemma ResolveRecords(p: Projection, state: InteractionState, answer: Option<Answer>) returns (item: ActivityItem)
    requires p.snapshot.pending.Some? && CurrentTurn(p).Some? && state != InteractionState.Pending
    requires Spared(p, p.snapshot.pending.value.id)
    ensures var pending := p.snapshot.pending.value;
            && item in ResolvePending(p, pending.id, state, answer).snapshot.items
            && Records(item, pending, CurrentTurn(p), state, answer)
  {
    hide Records, ResolvePending, CurrentTurn, InteractionRecord, Spared;
    item := InteractionRecord(p, p.snapshot.pending.value.(state := state), state, answer);
    RecordIsRight(p, p.snapshot.pending.value, state, answer);
    ResolveShows(p, state, answer);
  }

  // ----- Settings, notes and what surrounds the items

  /** `q` is `p` with `t` as its snapshot but for the number of the delta that
      told so, if it was not so before. */
  predicate IsSet(p: Projection, q: Projection, t: Snapshot) {
    && q.snapshot == t.(seqNo := q.snapshot.seqNo) && |q.sent| == |p.sent| + (if t == p.snapshot then 0 else 1)
    && q == p.(snapshot := q.snapshot, sent := q.sent)
  }

  lemma ConnectionSets(p: Projection, connection: Connection)
    ensures IsSet(p, SetConnection(p, connection), p.snapshot.(connection := connection))
  {
  }

  lemma WriterSets(p: Projection, writer: WriterState)
    ensures IsSet(p, SetWriter(p, writer), p.snapshot.(writer := writer))
  {
  }

  lemma SettingsSet(p: Projection, settings: seq<Setting>)
    ensures IsSet(p, SetSettings(p, settings), p.snapshot.(settings := settings))
  {
  }

  lemma CommandsSet(p: Projection, commands: seq<string>)
    ensures IsSet(p, SetCommands(p, commands), p.snapshot.(commands := commands))
  {
  }

  lemma UsageSets(p: Projection, usage: nat)
    ensures IsSet(p, SetUsage(p, usage), p.snapshot.(usage := Some(usage)))
  {
  }

  lemma TitleSets(p: Projection, title: string)
    ensures IsSet(p, SetTitle(p, title), p.snapshot.(title := Some(title)))
  {
  }

  /** A setter leaves its one part of the snapshot as told, and sends a delta
      exactly when it was not so before. */
  lemma SettersSet(p: Projection, action: Action)
    requires IsSetter(action) && !Panics(p, action)
    ensures var s := p.snapshot;
            IsSet(p, Step(p, action), match action
                                      case Connected(connection) => s.(connection := connection)
                                      case WrittenBy(writer) => s.(writer := writer)
                                      case Declared(settings) => s.(settings := settings)
                                      case Offered(commands) => s.(commands := commands)
                                      case Used(usage) => s.(usage := Some(usage))
                                      case Titled(title) => s.(title := Some(title)))
  {
    hide IsSet, SetConnection, SetWriter, SetSettings, SetCommands, SetUsage, SetTitle;
    match action
    case Connected(connection) => ConnectionSets(p, connection);
    case WrittenBy(writer) => WriterSets(p, writer);
    case Declared(settings) => SettingsSet(p, settings);
    case Offered(commands) => CommandsSet(p, commands);
    case Used(usage) => UsageSets(p, usage);
    case Titled(title) => TitleSets(p, title);
  }

  /** A note of the current turn: a mode or config change, or an update with no
      item of its own. */
  lemma SettingShows(p: Projection, settings: seq<Setting>, scope: string, kind: ItemKind, text: string) returns (item: ActivityItem)
    requires CurrentTurn(p).Some? && Spared(p, LocalId(p, "session", scope))
    ensures var q := PutSettingItem(p, settings, scope, kind, text);
            && item in q.snapshot.items && item.kind == kind && q.snapshot.settings == settings
            && IsTextItem(item, LocalId(p, "session", scope), CurrentTurn(p), ExcerptOf(text, p.retention.itemDetail))
  {
    hide PutTextBlock, CurrentTurn, Spared, ExcerptOf, IsTextItem, Decimal;
    var r := SetSettings(p, settings);
    var (q, id) := NextLocalId(r, "session", scope);
    SettingsParts(p, settings);
    SameCurrentTurn(p, q);
    SameItemsSpared(p, q, id);
    item := PutTextShows(q, id, kind, ExcerptOf(text, p.retention.itemDetail));
    PutTextSettings(q, id, kind, ExcerptOf(text, p.retention.itemDetail));
  }

  lemma SettingsParts(p: Projection, settings: seq<Setting>)
    ensures var q := SetSettings(p, settings);
            && q.snapshot.turn == p.snapshot.turn && q.replay == p.replay && q.nextLocal == p.nextLocal
            && q.snapshot.items == p.snapshot.items && q.snapshot.settings == settings && q.retention == p.retention
  {
  }

  lemma PutTextSettings(p: Projection, id: string, kind: ItemKind, block: DetailBlock)
    ensures PutTextBlock(p, id, kind, block).snapshot.settings == p.snapshot.settings
  {
    hide TextItem, BlockSize, DetailSize, Upsert;
    UpsertSettings(SetDetail(p, id, Blocks([block], BlockSize(block))).0, TextItem(p, id, kind, block));
  }

  lemma UpsertSettings(p: Projection, item: ActivityItem)
    ensures Upsert(p, item).snapshot.settings == p.snapshot.settings
  {
    hide PutItem, Enforce;
    if p.held.Some? {
      PutSettings(p.(held := None), p.held.value);
      EnforceSettings(PutItem(p.(held := None), p.held.value));
    }
    PutSettings(ShowHeld(p, Some(item.id)), item);
    EnforceSettings(PutItem(ShowHeld(p, Some(item.id)), item));
  }

  lemma PutSettings(p: Projection, item: ActivityItem)
    ensures PutItem(p, item).snapshot.settings == p.snapshot.settings
  {
    hide CompactSize;
  }

  lemma {:induction false} EnforceSettings(p: Projection)
    ensures Enforce(p).snapshot.settings == p.snapshot.settings
    decreases |p.snapshot.items|
  {
    hide SizeOf, DropItems, EvictedHistory, GroupOf, OverBounds, CurrentTurn;
    if OverBounds(p) && FirstOutside(p.snapshot.items, CurrentTurn(p)).Some? {
      var items := p.snapshot.items;
      var item := items[FirstOutside(items, CurrentTurn(p)).value];
      var ids := GroupOf(items, item);
      EvictedItems(p, ids);
      GroupHasItem(items, item);
      WithoutIsShorter(items, ids);
      DroppedKeeps(p.(compactBytes := p.compactBytes - SizeOf(items, ids)), ids);
      EnforceSettings(Evict(p, ids));
    }
  }

  lemma GenericShows(p: Projection, what: string)
    requires CurrentTurn(p).Some? && Spared(p, LocalId(p, "session", "generic"))
    ensures exists item :: item in PutGeneric(p, what).snapshot.items && item.kind == Generic(what)
                           && item.turnId == CurrentTurn(p) && item.id == LocalId(p, "session", "generic")
  {
    hide Upsert, CurrentTurn, Spared, Decimal, Untouched, IsOutside;
    var (q, id) := NextLocalId(p, "session", "generic");
    var item := ActivityItem(id, CurrentTurn(p), Generic(what), None, "", false);
    SameCurrentTurn(p, q);
    SameItemsSpared(p, q, id);
    CurrentIsInside(item, CurrentTurn(p));
    UpsertShows(q, item);
  }

  // ----- The end of a replay

  /** A message held back at the end of a replay is shown, in its turn. */
  lemma EndReplayShows(p: Projection)
    requires Ordered(p) && p.held.Some? && p.held.value.turnId == CurrentTurn(p) && CurrentTurn(p).Some?
    ensures var q := EndReplay(p);
            p.held.value in q.snapshot.items && q.held.None? && q.replay.None? && q.open.None?
  {
    hide Ordered, PutItem, Enforce, CurrentTurn, Spared, Spares, IsOutside, SameOrder;
    var item := p.held.value;
    var r := p.(held := None);
    SameCurrentTurn(p, r);
    ShowHeldKeeps(p, None);
    HeldIsApart(p);
    NewSpared(r, item.id);
    CurrentIsInside(item, CurrentTurn(p));
    PutShows(r, item);
    ShownStill(r, PutItem(r, item), item);
    EnforceSpares(PutItem(r, item), item.id);
    ItemIn(r, PutItem(r, item), item);
    SparesHas(PutItem(r, item), Enforce(PutItem(r, item)), item);
  }

  lemma HeldIsApart(p: Projection)
    requires Ordered(p) && p.held.Some?
    ensures IndexOf(p.snapshot.items, p.held.value.id).None?
  {
  }

  lemma NewSpared(p: Projection, id: string)
    requires IndexOf(p.snapshot.items, id).None?
    ensures Spared(p, id)
  {
    hide IsOutside, CurrentTurn;
  }

  lemma ItemIn(p: Projection, q: Projection, item: ActivityItem)
    requires Shows(p, q, item)
    ensures item in q.snapshot.items
  {
  }

  // ----- What a lookup answers

  /** Detail the bound refused is too large, released detail released, an item
      never given any has none, and no other id is an item's. */
  lemma LookUpTells(p: Projection, id: string)
    requires !LookupMisfits(p, id)
    ensures id in p.details && p.details[id] == TooLargeDetail ==> LookUp(p, id) == Unavailable(WasTooLarge)
    ensures id in p.details && p.details[id] == ReleasedDetail ==> LookUp(p, id) == Unavailable(WasReleased)
    ensures id !in p.details ==>
              LookUp(p, id) == if exists item :: item in p.snapshot.items && item.id == id then Unavailable(NotProvided) else NoSuchItem
    ensures id in p.details && p.details[id].Blocks? ==>
              LookUp(p, id).Available? && |LookUp(p, id).blocks| == |p.details[id].blocks|
              && (id !in p.users ==> LookUp(p, id).blocks == p.details[id].blocks)
  {
    hide CanShow, Shown;
    if i :| 0 <= i < |p.snapshot.items| && p.snapshot.items[i].id == id {
      assert p.snapshot.items[i] in p.snapshot.items;
    }
  }

  /** A lookup of a tool call after an update with detail answers that detail,
      or that it is too large, as the bound has it. */
  lemma ToolLookup(p: Projection, update: ToolUpdate, blocks: seq<DetailBlock>)
    requires Spared(p, update.id) && CurrentTurn(p).Some? && update.blocks == Some(blocks) && update.id !in p.users
    ensures var q := UpsertTool(p, update);
            && !LookupMisfits(q, update.id)
            && match LookUp(q, update.id)
               case Available(shown) => StoredFor(Blocks(shown, TotalSize(shown)), blocks, p.retention.itemDetail)
               case Unavailable(reason) => reason == WasTooLarge && StoredFor(TooLargeDetail, blocks, p.retention.itemDetail)
               case NoSuchItem => false
  {
    hide UpsertTool, CurrentTurn, Spared, Merges, TotalSize, Describes, Lines, HasText, TerminalBytes, ShownBlocks, CanShow;
    var item := ToolShows(p, update);
    ToolKeepsUsers(p, update);
  }

  lemma ToolKeepsUsers(p: Projection, update: ToolUpdate)
    requires Spared(p, update.id) && CurrentTurn(p).Some?
    ensures update.id in UpsertTool(p, update).users <==> update.id in p.users
  {
    hide Upsert, ToolItem, CurrentTurn, Spared, HoldAll, DataSize, SetDetail, IsOutside, BoundedBlocks;
    ToolMerges(p, update);
    var item := ToolItem(p, update);
    var q := ToolMedia(p.(open := None), update);
    var r := match update.blocks case Some(blocks) => StoreDetail(q, update.id, blocks) case None => q;
    StoreKeepsUsers(q, update);
    SameCurrentTurn(p, r);
    SameItemsSpared(p, r, update.id);
    UpsertShows(r, item);
  }

  lemma StoreKeepsUsers(p: Projection, update: ToolUpdate)
    ensures match update.blocks
            case Some(blocks) =>
              var q := StoreDetail(p, update.id, blocks);
              q.users == p.users && q.snapshot == p.snapshot && q.replay == p.replay
            case None => true
  {
    hide BoundedBlocks, DetailSize;
  }

  /** Detail released is gone for a lookup, and the item is still there. */
  lemma ReleasedLookup(p: Projection, id: string)
    requires id in p.details && DetailSize(p.details[id]) > 0
    ensures var q := ReleaseItem(p, id, false).0;
            !LookupMisfits(q, id) && LookUp(q, id) == Unavailable(WasReleased) && q.snapshot == p.snapshot
  {
    hide DataSize, ReleasedAll, DetailSize;
  }
}
