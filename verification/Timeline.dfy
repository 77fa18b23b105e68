/** The current turn is never evicted: what its operations put stays in the
    timeline, with what is held for it, and its end leaves its outcome there.
    `projection.rs`. */
module Timeline {
  import opened Text
  import opened DetailText
  import opened Activity
  import opened Projection
  import opened TurnRetention
  import opened Survival
  import opened ProjectionRuns
  import opened DetailBound

  // ----- The current turn is spared

  /** No item of that id is outside the current turn. */
  ghost predicate Spared(p: Projection, id: string) {
    forall item :: item in p.snapshot.items && item.id == id ==> !IsOutside(item, CurrentTurn(p))
  }

  /** The items of that id, and what is held for it, are those of `p`. */
  ghost predicate Spares(p: Projection, q: Projection, id: string) {
    && Spared(q, id) && CurrentTurn(q) == CurrentTurn(p) && q.retention == p.retention && q.replay == p.replay
    && (p.open.Some? && p.open.value.1 == id ==> q.open == p.open)
    && (forall item: ActivityItem :: item.id == id ==> (item in q.snapshot.items <==> item in p.snapshot.items))
    && Untouched(p, q, id)
  }

  lemma SparesThen(p: Projection, q: Projection, r: Projection, id: string)
    requires Spares(p, q, id) && Spares(q, r, id)
    ensures Spares(p, r, id)
  {
    hide CurrentTurn, IsOutside;
  }

  lemma SparesItself(p: Projection, id: string)
    requires Spared(p, id)
    ensures Spares(p, p, id)
  {
    hide CurrentTurn, IsOutside;
  }

  lemma {:induction false} IdsAreOfTurn(items: seq<ActivityItem>, turn: string, id: string)
    requires id in IdsOfTurn(items, turn)
    ensures exists item :: item in items && item.id == id && item.turnId == Some(turn)
  {
    var last := items[|items| - 1];
    if id in IdsOfTurn(items[..|items| - 1], turn) {
      IdsAreOfTurn(items[..|items| - 1], turn, id);
      var item :| item in items[..|items| - 1] && item.id == id && item.turnId == Some(turn);
      assert item in items;
    } else {
      assert last in items;
    }
  }

  lemma NotInGroup(items: seq<ActivityItem>, outside: ActivityItem, current: Option<string>, id: string)
    requires outside in items && IsOutside(outside, current)
    requires forall item :: item in items && item.id == id ==> !IsOutside(item, current)
    ensures id !in GroupOf(items, outside)
  {
    if outside.turnId.Some? && id in IdsOfTurn(items, outside.turnId.value) {
      IdsAreOfTurn(items, outside.turnId.value, id);
    }
  }

  lemma {:induction false} DropSpares(p: Projection, ids: seq<string>, id: string)
    requires id !in ids
    ensures Untouched(p, DropItems(p, ids), id)
  {
    hide DetailSize, DataSize;
    if ids != [] { DropSpares(p, ids[..|ids| - 1], id); }
  }

  lemma EvictUntouched(p: Projection, ids: seq<string>, id: string)
    requires id !in ids
    ensures Untouched(p, Evict(p, ids), id)
    ensures p.open.Some? && p.open.value.1 == id ==> Evict(p, ids).open == p.open
  {
    hide SizeOf, DropItems, EvictedHistory;
    DroppedKeeps(p.(compactBytes := p.compactBytes - SizeOf(p.snapshot.items, ids)), ids);
    DropSpares(p.(compactBytes := p.compactBytes - SizeOf(p.snapshot.items, ids)), ids, id);
  }

  lemma EvictSpares(p: Projection, ids: seq<string>, id: string)
    requires Spared(p, id) && id !in ids
    ensures Spares(p, Evict(p, ids), id)
  {
    hide Evict, Without, IsOutside, CurrentTurn, Untouched, EvictedHistory;
    EvictParts(p, ids);
    EvictUntouched(p, ids, id);
    SameCurrentTurn(p, Evict(p, ids));
    forall item: ActivityItem | item.id == id ensures item in Evict(p, ids).snapshot.items <==> item in p.snapshot.items {
      WithoutHas(p.snapshot.items, ids, item);
    }
  }

  /** Enforcing the bounds never takes an item of the current turn, nor
      anything held for it. */
  lemma {:induction false} EnforceSpares(p: Projection, id: string)
    requires Spared(p, id)
    ensures Spares(p, Enforce(p), id)
    decreases |p.snapshot.items|
  {
    hide Evict, GroupOf, OverBounds, CurrentTurn, IsOutside, Spares, Untouched;
    var items := p.snapshot.items;
    if OverBounds(p) && FirstOutside(items, CurrentTurn(p)).Some? {
      var oldest := items[FirstOutside(items, CurrentTurn(p)).value];
      var ids := GroupOf(items, oldest);
      NotInGroup(items, oldest, CurrentTurn(p), id);
      EvictSpares(p, ids, id);
      EvictedItems(p, ids);
      GroupHasItem(items, oldest);
      WithoutIsShorter(items, ids);
      StillSpared(p, Evict(p, ids), id);
      EnforceSpares(Evict(p, ids), id);
      SparesThen(p, Evict(p, ids), Enforce(Evict(p, ids)), id);
    } else {
      SparesItself(p, id);
    }
  }

  lemma StillSpared(p: Projection, q: Projection, id: string)
    requires Spares(p, q, id)
    ensures Spared(q, id) && CurrentTurn(q) == CurrentTurn(p)
  {
    hide CurrentTurn, IsOutside, Untouched;
  }

  lemma WithItemHas(items: seq<ActivityItem>, item: ActivityItem, other: ActivityItem)
    ensures item in WithItem(items, item)
    ensures other.id != item.id ==> (other in WithItem(items, item) <==> other in items)
  {
    hide IndexOf;
    match IndexOf(items, item.id)
    case Some(i) =>
      assert items[i := item][i] == item;
      if other.id != item.id && other in items {
        var k :| 0 <= k < |items| && items[k] == other;
        assert items[i := item][k] == other;
      }
    case None =>
  }

  /** Putting an item of another id leaves this one alone. */
  lemma PutSpares(p: Projection, item: ActivityItem, id: string)
    requires Spared(p, id) && item.id != id
    ensures Spares(p, PutItem(p, item), id)
  {
    hide PutItem, CurrentTurn, IsOutside, WithItem;
    PutParts(p, item);
    PutHolds(p, item);
    forall other: ActivityItem | other.id == id
      ensures other in WithItem(p.snapshot.items, item) <==> other in p.snapshot.items {
      WithItemHas(p.snapshot.items, item, other);
    }
  }

  lemma PutHolds(p: Projection, item: ActivityItem)
    ensures var q := PutItem(p, item); q.details == p.details && q.media == p.media && q.users == p.users
  {
    hide CompactSize;
  }

  lemma ShowHeldSpares(p: Projection, id: string)
    requires Spared(p, id)
    ensures Spares(p, ShowHeld(p, Some(id)), id)
  {
    hide PutItem, Enforce, CurrentTurn, IsOutside, Spares, Untouched;
    SparesItself(p, id);
    if p.held.Some? && p.held.value.id != id {
      var q := p.(held := None);
      HeldAside(p, id);
      StillSpared(p, q, id);
      PutSpares(q, p.held.value, id);
      StillSpared(q, PutItem(q, p.held.value), id);
      EnforceSpares(PutItem(q, p.held.value), id);
      SparesThen(q, PutItem(q, p.held.value), Enforce(PutItem(q, p.held.value)), id);
      SparesThen(p, q, Enforce(PutItem(q, p.held.value)), id);
    }
  }

  lemma HeldAside(p: Projection, id: string)
    requires Spared(p, id)
    ensures Spares(p, p.(held := None), id)
  {
    hide IsOutside;
  }

  /** What an item put shows. */
  ghost predicate Shows(p: Projection, q: Projection, item: ActivityItem) {
    && item in q.snapshot.items && Spared(q, item.id) && Untouched(p, q, item.id)
    && CurrentTurn(q) == CurrentTurn(p) && q.retention == p.retention && q.replay == p.replay
    && (p.open.Some? && p.open.value.1 == item.id ==> q.open == p.open)
  }

  lemma PutShows(p: Projection, item: ActivityItem)
    requires Spared(p, item.id) && !IsOutside(item, CurrentTurn(p))
    ensures Shows(p, PutItem(p, item), item)
  {
    hide PutItem, CurrentTurn, IsOutside, IndexOf;
    PutParts(p, item);
    PutHolds(p, item);
    var items := WithItem(p.snapshot.items, item);
    WithItemHas(p.snapshot.items, item, item);
    forall other | other in items && other.id == item.id ensures !IsOutside(other, CurrentTurn(p)) {
      OnlyKnown(p.snapshot.items, item, other);
    }
  }

  lemma OnlyKnown(items: seq<ActivityItem>, item: ActivityItem, other: ActivityItem)
    requires other in WithItem(items, item)
    ensures other == item || other in items
  {
    var k :| 0 <= k < |WithItem(items, item)| && WithItem(items, item)[k] == other;
  }

  /** An item of the current turn is in the list once it is put, and what is
      held for it stays. */
  lemma UpsertShows(p: Projection, item: ActivityItem)
    requires Spared(p, item.id) && !IsOutside(item, CurrentTurn(p))
    ensures Shows(p, Upsert(p, item), item) && Upsert(p, item).snapshot.turn == p.snapshot.turn
  {
    hide *;
    var q := ShowHeld(p, Some(item.id));
    ShowHeldSpares(p, item.id);
    StillSpared(p, q, item.id);
    PutShows(q, item);
    var r := PutItem(q, item);
    ShownStill(q, r, item);
    EnforceSpares(r, item.id);
    UpsertIs(p, item);
    UpsertParts(p, item);
    ShowsThrough(p, q, r, Enforce(r), item);
  }

  lemma ShownStill(p: Projection, q: Projection, item: ActivityItem)
    requires Shows(p, q, item)
    ensures Spared(q, item.id)
  {
  }

  lemma ShowsThrough(p: Projection, q: Projection, r: Projection, s: Projection, item: ActivityItem)
    requires Spares(p, q, item.id) && Shows(q, r, item) && Spares(r, s, item.id)
    ensures Shows(p, s, item)
  {
    hide CurrentTurn, IsOutside;
  }

  /** And another item of the current turn stays beside it. */
  lemma UpsertSpares(p: Projection, item: ActivityItem, id: string)
    requires Spared(p, id) && item.id != id && (p.held.Some? ==> p.held.value.id != id)
    ensures Spares(p, Upsert(p, item), id)
  {
    hide *;
    var q := ShowHeld(p, Some(item.id));
    HeldSpares(p, item, id);
    StillSpared(p, q, id);
    PutSpares(q, item, id);
    var r := PutItem(q, item);
    StillSpared(q, r, id);
    EnforceSpares(r, id);
    UpsertIs(p, item);
    SparesThen(p, q, r, id);
    SparesThen(p, r, Enforce(r), id);
  }

  lemma HeldSpares(p: Projection, item: ActivityItem, id: string)
    requires Spared(p, id) && (p.held.Some? ==> p.held.value.id != id)
    ensures Spares(p, ShowHeld(p, Some(item.id)), id)
  {
    hide *;
    SparesItself(p, id);
    if p.held.None? || p.held.value.id == item.id {
      NotShown(p, item.id);
    } else {
      var q := p.(held := None);
      HeldAside(p, id);
      StillSpared(p, q, id);
      PutSpares(q, p.held.value, id);
      StillSpared(q, PutItem(q, p.held.value), id);
      EnforceSpares(PutItem(q, p.held.value), id);
      ShowsHeld(p, Some(item.id));
      SparesThen(q, PutItem(q, p.held.value), Enforce(PutItem(q, p.held.value)), id);
      SparesThen(p, q, Enforce(PutItem(q, p.held.value)), id);
    }
  }

  lemma NotShown(p: Projection, id: string)
    requires p.held.None? || p.held.value.id == id
    ensures ShowHeld(p, Some(id)) == p
  {
  }

  // ----- Turns and requests

  /** `q` keeps the turn of `p` but for its status. */
  ghost predicate SameTurnOf(p: Projection, q: Projection) {
    && CurrentTurn(q) == CurrentTurn(p) && q.snapshot.turn.phase == p.snapshot.turn.phase
    && q.snapshot.turn.turnId == p.snapshot.turn.turnId
  }

  /** Within a turn, resolving the pending interaction leaves its record in the
      timeline, and none is pending any more. */
  lemma ResolveShows(p: Projection, state: InteractionState, answer: Option<Answer>)
    requires p.snapshot.pending.Some? && CurrentTurn(p).Some? && state != InteractionState.Pending
    requires Spared(p, p.snapshot.pending.value.id)
    ensures var q := ResolvePending(p, p.snapshot.pending.value.id, state, answer);
            && InteractionRecord(p, p.snapshot.pending.value.(state := state), state, answer) in q.snapshot.items
            && q.snapshot.pending.None? && SameTurnOf(p, q) && Spared(q, p.snapshot.pending.value.id)
  {
    hide Upsert, CurrentTurn, InteractionRecord, StatusOf, Spared, Untouched;
    var pending := p.snapshot.pending.value.(state := state);
    var q := Emit(p, PendingChange(pending));
    var item := InteractionRecord(p, pending, state, answer);
    RecordIs(p, pending, state, answer);
    SameCurrentTurn(p, q);
    SameItemsSpared(p, q, item.id);
    CurrentIsInside(item, CurrentTurn(p));
    UpsertShows(q, item);
    UpsertParts(q, item);
    RefreshShows(Upsert(q, item));
    SameItemsSpared(Upsert(q, item), RefreshStatus(Upsert(q, item)), item.id);
  }

  lemma CurrentIsInside(item: ActivityItem, current: Option<string>)
    requires current.Some? && item.turnId == current
    ensures !IsOutside(item, current)
  {
  }

  lemma SameItemsSpared(p: Projection, q: Projection, id: string)
    requires Spared(p, id) && q.snapshot.items == p.snapshot.items && CurrentTurn(q) == CurrentTurn(p)
    ensures Spared(q, id)
  {
    hide CurrentTurn;
  }

  lemma RefreshShows(p: Projection)
    ensures var q := RefreshStatus(p);
            && q.snapshot.items == p.snapshot.items && q.snapshot.pending == p.snapshot.pending && SameTurnOf(p, q)
  {
    hide StatusOf;
  }

  lemma CloseSpares(p: Projection, state: InteractionState, id: string)
    requires Spared(p, id) && state != InteractionState.Pending
    requires p.snapshot.pending.Some? ==> p.snapshot.pending.value.id != id
    requires p.held.Some? ==> p.held.value.id != id
    ensures Spared(ClosePending(p, state), id) && SameTurnOf(p, ClosePending(p, state))
    ensures ClosePending(p, state).snapshot.pending.None?
  {
    hide Upsert, CurrentTurn, InteractionRecord, StatusOf, Spared, Untouched, Spares;
    if p.snapshot.pending.Some? {
      var pending := p.snapshot.pending.value.(state := state);
      var q := Emit(p, PendingChange(pending));
      var record := InteractionRecord(p, pending, state, None);
      RecordIs(p, pending, state, None);
      SameCurrentTurn(p, q);
      SameItemsSpared(p, q, id);
      UpsertSpares(q, record, id);
      StillSpared(q, Upsert(q, record), id);
      UpsertParts(q, record);
      RefreshShows(Upsert(q, record));
      SameItemsSpared(Upsert(q, record), RefreshStatus(Upsert(q, record)), id);
    }
  }

  // ----- Text items

  function HeadText(block: DetailBlock): string {
    match block case TextBlock(text) => text case Excerpt(head, _, _) => head case _ => ""
  }

  /** The item of a text in the current turn. */
  ghost predicate IsTextItem(item: ActivityItem, id: string, turn: Option<string>, block: DetailBlock) {
    && item.id == id && item.turnId == turn && item.summary == Bounded(HeadText(block), SUMMARY_LIMIT)
    && (item.hasDetail <==> block.Excerpt? || Bytes(HeadText(block)) > SUMMARY_LIMIT)
  }

  lemma TextItemIsRight(p: Projection, id: string, kind: ItemKind, block: DetailBlock)
    requires Spared(p, id) && CurrentTurn(p).Some?
    ensures IsTextItem(TextItem(p, id, kind, block), id, CurrentTurn(p), block)
    ensures TextItem(p, id, kind, block).kind == kind && !IsOutside(TextItem(p, id, kind, block), CurrentTurn(p))
  {
    hide CurrentTurn, Bytes;
    var known := IndexOf(p.snapshot.items, id);
    assert known.Some? ==> p.snapshot.items[known.value] in p.snapshot.items;
  }

  lemma SetDetailSpares(p: Projection, id: string, detail: Detail)
    requires Spared(p, id)
    ensures var q := SetDetail(p, id, detail).0;
            && Spared(q, id) && CurrentTurn(q) == CurrentTurn(p) && q.details == p.details[id := detail]
            && q.snapshot == p.snapshot && q.open == p.open && q.replay == p.replay && q.held == p.held
            && q.users == p.users && q.retention == p.retention && q.media == p.media
  {
    hide IsOutside, DetailSize;
  }

  /** A text put in the current turn is held, and its item shown. */
  lemma PutTextShows(p: Projection, id: string, kind: ItemKind, block: DetailBlock) returns (item: ActivityItem)
    requires Spared(p, id) && CurrentTurn(p).Some?
    ensures var q := PutTextBlock(p, id, kind, block);
            && item in q.snapshot.items && IsTextItem(item, id, CurrentTurn(p), block) && item.kind == kind
            && id in q.details && q.details[id] == Blocks([block], BlockSize(block))
            && (id in q.users <==> id in p.users)
            && Spared(q, id) && CurrentTurn(q) == CurrentTurn(p) && q.retention == p.retention
            && q.snapshot.turn == p.snapshot.turn && (p.held.None? || p.held.value.id != id ==> q.held.None?)
            && (p.open.Some? && p.open.value.1 == id ==> q.open == p.open)
            && (id in q.media <==> id in p.media) && (id in p.media ==> q.media[id] == p.media[id])
  {
    hide IsTextItem, TextItem, Upsert, BlockSize, CurrentTurn, IsOutside, Spared, SetDetail;
    item := TextItem(p, id, kind, block);
    var r := SetDetail(p, id, Blocks([block], BlockSize(block))).0;
    TextItemIsRight(p, id, kind, block);
    TextItemIsFor(p, id, kind, block);
    SetDetailSpares(p, id, Blocks([block], BlockSize(block)));
    UpsertShows(r, item);
    if p.held.None? || p.held.value.id != id { NothingHeldAfter(r, item); }
  }

  lemma TextItemIsFor(p: Projection, id: string, kind: ItemKind, block: DetailBlock)
    ensures TextItem(p, id, kind, block).id == id
  {
    hide CurrentTurn, Bytes;
  }

  lemma NothingHeldAfter(p: Projection, item: ActivityItem)
    requires p.held.None? || p.held.value.id != item.id
    ensures Upsert(p, item).held.None?
  {
    hide PutItem, Enforce, Spared;
    var q := ShowHeld(p, Some(item.id));
    if p.held.Some? {
      PutParts(p.(held := None), p.held.value);
      EnforceParts(PutItem(p.(held := None), p.held.value));
    }
    PutParts(q, item);
    EnforceParts(PutItem(q, item));
  }

  // ----- The end of a turn

  /** The ids of what ending a turn records — the request it closes, the error
      it ends with, its outcome — are free, and differ. */
  ghost predicate EndSpared(p: Projection, turnId: string, error: Option<string>) {
    var outcome, failure := "outcome:" + turnId, LocalId(p, turnId, "error");
    && Spared(p, outcome) && (p.held.Some? ==> p.held.value.id != outcome)
    && (p.snapshot.pending.Some? ==> p.snapshot.pending.value.id != outcome)
    && (error.Some? ==>
          && Spared(p, failure) && failure != outcome && (p.held.Some? ==> p.held.value.id != failure)
          && (p.snapshot.pending.Some? ==> p.snapshot.pending.value.id != failure))
  }

  lemma CloseCounts(p: Projection, state: InteractionState)
    ensures ClosePending(p, state).nextLocal == p.nextLocal && ClosePending(p, state).retention == p.retention
  {
    hide Upsert, InteractionRecord, StatusOf;
    if p.snapshot.pending.Some? {
      var pending := p.snapshot.pending.value.(state := state);
      UpsertParts(Emit(p, PendingChange(pending)), InteractionRecord(p, pending, state, None));
    }
  }

  lemma CloseHolds(p: Projection, state: InteractionState, id: string)
    requires p.held.Some? ==> p.held.value.id != id
    ensures var q := ClosePending(p, state); q.held.Some? ==> q.held.value.id != id
  {
    hide ShowHeld, PutItem, Enforce, InteractionRecord, StatusOf;
    if p.snapshot.pending.Some? {
      var pending := p.snapshot.pending.value.(state := state);
      var q := Emit(p, PendingChange(pending));
      HeldOrNone(q, InteractionRecord(p, pending, state, None));
    }
  }

  lemma HeldOrNone(p: Projection, item: ActivityItem)
    ensures Upsert(p, item).held.None? || Upsert(p, item).held == p.held
  {
    hide PutItem, Enforce;
    var q := ShowHeld(p, Some(item.id));
    if p.held.Some? {
      PutParts(p.(held := None), p.held.value);
      EnforceParts(PutItem(p.(held := None), p.held.value));
    }
    PutParts(q, item);
    EnforceParts(PutItem(q, item));
  }

  /** What the error of a turn leaves: nothing without one, else an item with
      its text, besides which `id` is still free. */
  lemma ErrorShows(p: Projection, turnId: string, error: Option<string>, id: string) returns (item: ActivityItem)
    requires CurrentTurn(p).Some? && Spared(p, id) && (p.held.Some? ==> p.held.value.id != id)
    requires error.Some? ==> Spared(p, LocalId(p, turnId, "error")) && LocalId(p, turnId, "error") != id
    ensures var q := PutError(p, turnId, error);
            && Spared(q, id) && CurrentTurn(q) == CurrentTurn(p) && q.snapshot.turn == p.snapshot.turn
            && q.snapshot.pending == p.snapshot.pending
            && (error.Some? ==>
                  && item in q.snapshot.items && item.kind == ErrorItem && Spared(q, item.id)
                  && IsTextItem(item, LocalId(p, turnId, "error"), CurrentTurn(p), ExcerptOf(error.value, p.retention.itemDetail))
                  && ((p.held.Some? ==> p.held.value.id != item.id) ==> q.held.None?))
  {
    hide PutTextBlock, ExcerptOf, IsTextItem, CurrentTurn, Spared, LocalId, Spares;
    match error
    case Some(message) =>
      var failure := LocalId(p, turnId, "error");
      var q := NextLocalId(p, turnId, "error").0;
      LocalIs(p, turnId);
      SameItemsSpared(p, q, failure);
      SameItemsSpared(p, q, id);
      var block := ExcerptOf(message, p.retention.itemDetail);
      item := PutTextShows(q, failure, ErrorItem, block);
      ItemIdIs(item, failure, CurrentTurn(p), block);
      PutTextSpares(q, failure, ErrorItem, block, id);
    case None =>
      item := OutcomeItem(turnId, EndTurn);
  }

  lemma ItemIdIs(item: ActivityItem, id: string, turn: Option<string>, block: DetailBlock)
    requires IsTextItem(item, id, turn, block)
    ensures item.id == id && item.turnId == turn
  {
    hide Bytes;
  }

  lemma LocalIs(p: Projection, turnId: string)
    ensures var (q, id) := NextLocalId(p, turnId, "error");
            && id == LocalId(p, turnId, "error") && q.snapshot == p.snapshot && q.retention == p.retention && q.held == p.held
            && CurrentTurn(q) == CurrentTurn(p)
  {
    hide Decimal;
  }

  lemma PutTextSpares(p: Projection, id: string, kind: ItemKind, block: DetailBlock, other: string)
    requires Spared(p, other) && other != id && (p.held.Some? ==> p.held.value.id != other)
    ensures Spared(PutTextBlock(p, id, kind, block), other)
    ensures PutTextBlock(p, id, kind, block).snapshot.pending == p.snapshot.pending
  {
    hide TextItem, Upsert, BlockSize, CurrentTurn, IsOutside, Spared, SetDetail, Untouched;
    var item := TextItem(p, id, kind, block);
    var r := SetDetail(p, id, Blocks([block], BlockSize(block))).0;
    TextItemIsFor(p, id, kind, block);
    SetDetailSpares(p, other, Blocks([block], BlockSize(block)));
    DetailAside(p, id, Blocks([block], BlockSize(block)), other);
    UpsertSpares(r, item, other);
    UpsertParts(r, item);
    StillSpared(r, Upsert(r, item), other);
  }

  lemma DetailAside(p: Projection, id: string, detail: Detail, other: string)
    requires Spared(p, other)
    ensures var q := SetDetail(p, id, detail).0; Spared(q, other) && q.held == p.held && q.snapshot == p.snapshot
  {
    hide IsOutside, DetailSize;
  }

  lemma ErrorSpares(p: Projection, turnId: string, error: Option<string>, item: ActivityItem)
    requires Spared(p, item.id) && item in p.snapshot.items && (p.held.Some? ==> p.held.value.id != item.id)
    requires error.Some? ==> LocalId(p, turnId, "error") != item.id
    ensures var q := PutError(p, turnId, error);
            item in q.snapshot.items && Spared(q, item.id) && (q.held.Some? ==> q.held.value.id != item.id)
  {
    hide TextItem, Upsert, BlockSize, CurrentTurn, IsOutside, Spared, SetDetail, Untouched, Spares, LocalId, ExcerptOf;
    match error
    case Some(message) =>
      var (q, id) := NextLocalId(p, turnId, "error");
      LocalIs(p, turnId);
      SameItemsSpared(p, q, item.id);
      var block := ExcerptOf(message, q.retention.itemDetail);
      var detail := Blocks([block], BlockSize(block));
      var r := SetDetail(q, id, detail).0;
      TextItemIsFor(q, id, ErrorItem, block);
      DetailAside(q, id, detail, item.id);
      UpsertSpares(r, TextItem(q, id, ErrorItem, block), item.id);
      StillSpared(r, Upsert(r, TextItem(q, id, ErrorItem, block)), item.id);
      SparesHas(r, Upsert(r, TextItem(q, id, ErrorItem, block)), item);
      HeldOrNone(r, TextItem(q, id, ErrorItem, block));
    case None =>
  }

  /** The request the end of a turn closes stays in the timeline as resolved. */
  lemma FinishRecords(p: Projection, turnId: string, reason: StopReason, error: Option<string>) returns (record: ActivityItem)
    requires IsCurrent(p, turnId) && p.snapshot.pending.Some? && Spared(p, p.snapshot.pending.value.id)
    requires var id := p.snapshot.pending.value.id;
             && id != "outcome:" + turnId && (error.Some? ==> LocalId(p, turnId, "error") != id)
             && (p.held.Some? ==> p.held.value.id != id)
    ensures var state := if reason == TurnCancelled then Cancelled else Expired;
            && record in FinishTurn(p, turnId, reason, error).snapshot.items
            && record == InteractionRecord(p, p.snapshot.pending.value.(state := state), state, None)
  {
    hide Upsert, ResolvePending, CurrentTurn, Spared, Untouched, PutError, LocalId, Spares, InteractionRecord;
    var pending, state := p.snapshot.pending.value, if reason == TurnCancelled then Cancelled else Expired;
    var c := ClosePending(p, state);
    var q := c.(open := None);
    record := InteractionRecord(p, pending.(state := state), state, None);
    RecordIs(p, pending.(state := state), state, None);
    ActiveTurn(p, turnId);
    ResolveShows(p, state, None);
    CloseHolds(p, state, pending.id);
    CloseCounts(p, state);
    LocalSame(p, q, turnId);
    SameCurrentTurn(c, q);
    SameItemsSpared(c, q, pending.id);
    ErrorSpares(q, turnId, error, record);
    var r := PutError(q, turnId, error);
    UpsertSpares(r, OutcomeItem(turnId, reason), pending.id);
    SparesHas(r, Upsert(r, OutcomeItem(turnId, reason)), record);
  }

  /** Ending the current turn leaves in the timeline its outcome and, if it
      failed, its error; the turn has ended with it, and nothing is pending. */
  lemma FinishShows(p: Projection, turnId: string, reason: StopReason, error: Option<string>)
      returns (outcome: ActivityItem, failure: ActivityItem)
    requires IsCurrent(p, turnId) && EndSpared(p, turnId, error)
    ensures var q := FinishTurn(p, turnId, reason, error);
            && q.snapshot.turn == TurnState(Some(turnId), NoTurn, Some(reason), Idle(Some(reason)))
            && q.snapshot.pending.None?
            && outcome in q.snapshot.items && outcome.id == "outcome:" + turnId && outcome.turnId == Some(turnId)
            && outcome.kind == (if reason == TurnInterrupted then InterruptedItem else TurnOutcome(reason))
            && (error.Some? ==>
                  && failure in q.snapshot.items && failure.kind == ErrorItem
                  && IsTextItem(failure, LocalId(p, turnId, "error"), Some(turnId),
                                ExcerptOf(error.value, p.retention.itemDetail)))
  {
    hide Upsert, ClosePending, CurrentTurn, Spared, Untouched, PutError, LocalId, IsTextItem, ExcerptOf, Spares;
    var c := ClosePending(p, PendingOutcome(reason));
    var q := c.(open := None);
    outcome := OutcomeItem(turnId, reason);
    CloseSpares(p, PendingOutcome(reason), outcome.id);
    CloseHolds(p, PendingOutcome(reason), outcome.id);
    CloseCounts(p, PendingOutcome(reason));
    ActiveTurn(p, turnId);
    LocalSame(p, q, turnId);
    SameCurrentTurn(c, q);
    SameItemsSpared(c, q, outcome.id);
    if error.Some? {
      CloseSpares(p, PendingOutcome(reason), LocalId(p, turnId, "error"));
      CloseHolds(p, PendingOutcome(reason), LocalId(p, turnId, "error"));
      SameItemsSpared(c, q, LocalId(p, turnId, "error"));
    }
    failure := ErrorShows(q, turnId, error, outcome.id);
    var r := PutError(q, turnId, error);
    CurrentIsInside(outcome, CurrentTurn(r));
    UpsertShows(r, outcome);
    UpsertParts(r, outcome);
    if error.Some? {
      ItemIdIs(failure, LocalId(p, turnId, "error"), Some(turnId), ExcerptOf(error.value, p.retention.itemDetail));
      UpsertSpares(r, outcome, failure.id);
      SparesHas(r, Upsert(r, outcome), failure);
    }
  }

  lemma SparesHas(p: Projection, q: Projection, item: ActivityItem)
    requires Spares(p, q, item.id) && item in p.snapshot.items
    ensures item in q.snapshot.items
  {
    hide CurrentTurn, IsOutside, Untouched;
  }

  lemma LocalSame(p: Projection, q: Projection, turnId: string)
    requires q.nextLocal == p.nextLocal
    ensures LocalId(q, turnId, "error") == LocalId(p, turnId, "error")
  {
    hide Decimal;
  }
}
