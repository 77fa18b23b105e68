/** The projection of a session as the runtime holds it: an object whose
    methods change it in place, and the count of detail bytes it shares with
    the other sessions of the process. `projection.rs`. */
module SessionProjections {
  import opened Text
  import opened RoutineBlock
  import opened BlockScan
  import opened RoutinePrompt
  import opened DetailText
  import opened UserTexts
  import opened Activity
  import opened Projection
  import opened ProjectionRuns
  import opened Accounting

  /** `process_detail`, shared by the projections of a process. */
  class ByteCounter {
    var bytes: nat

    constructor ()
      ensures bytes == 0
    {
      bytes := 0;
    }
  }

  lemma PartOfTotal<V>(m: map<string, V>, size: V -> nat, k: string)
    requires k in m
    ensures size(m[k]) <= Total(m, size)
  {
    TotalTaken(m, size, k);
  }

  lemma DetailIsHeld(p: Projection, id: string)
    requires p.detailBytes == DetailTotal(p)
    ensures id in p.details ==> DetailSize(p.details[id]) <= p.detailBytes
    ensures id in p.media ==> DataSize(p.media[id]) <= p.detailBytes
  {
    hide DetailSize, DataSize, Total, SumCompact;
    if id in p.details { PartOfTotal(p.details, DetailSize, id); }
    if id in p.media { PartOfTotal(p.media, DataSize, id); }
  }

  lemma CountsDetail(p: Projection)
    requires Accounted(p)
    ensures p.detailBytes == DetailTotal(p)
  {
  }

  lemma TakenCounts(p: Projection, id: string)
    requires p.detailBytes == DetailTotal(p)
    ensures TakeMedia(p, id).0.detailBytes == DetailTotal(TakeMedia(p, id).0)
  {
    hide DataSize, Total;
    NoDataSums();
    TotalLess(p.media, DataSize, id);
  }

  /** Evicted items are counted among all of them. */
  lemma {:induction false} EvictedAreCounted(items: seq<ActivityItem>, ids: seq<string>, i: nat)
    requires i <= |items|
    ensures SizeOf(items[..i], ids) <= SumCompact(items)
  {
    hide SumCompact, SizeOf, CompactSize;
    if i == |items| {
      assert items[..i] == items;
      SumWithout(items, ids);
    } else {
      SumStep(items);
      EvictedAreCounted(items[..|items| - 1], ids, i);
      assert items[..|items| - 1][..i] == items[..i];
    }
  }

  lemma {:induction false} ItemIsCounted(items: seq<ActivityItem>, i: nat)
    requires i < |items|
    ensures CompactSize(items[i]) <= SumCompact(items)
  {
    hide CompactSize, SumCompact;
    SumStep(items);
    if i < |items| - 1 { ItemIsCounted(items[..|items| - 1], i); }
  }

  lemma ReleasedStep(data: seq<MediaData>, i: nat)
    requires i < |data|
    ensures ReleasedAll(data[..i + 1]) == ReleasedAll(data[..i]) + [if data[i].HeldData? then ReleasedData else data[i]]
    ensures DataSize(data[..i + 1]) == DataSize(data[..i]) + DatumSize(data[i])
  {
    assert data[..i + 1][..i] == data[..i];
  }

  /** Data with everything held released, and the bytes that held. */
  method ReleaseData(data: seq<MediaData>) returns (released: seq<MediaData>, freed: nat)
    ensures released == ReleasedAll(data) && freed == DataSize(data)
  {
    hide ReleasedAll, DataSize;
    released, freed := data, 0;
    var i := 0;
    NoneReleased();
    assert data[..0] == [];
    while i < |data|
      invariant 0 <= i <= |data| == |released|
      invariant released[..i] == ReleasedAll(data[..i]) && released[i..] == data[i..]
      invariant freed == DataSize(data[..i])
    {
      ReleasedStep(data, i);
      freed := freed + DatumSize(released[i]);
      if released[i].HeldData? { released := released[i := ReleasedData]; }
      i := i + 1;
    }
    assert data[..i] == data && data[i..] == [];
  }

  lemma NoneReleased()
    ensures ReleasedAll([]) == [] && DataSize([]) == 0
  {
  }

  lemma HeldStep(parts: seq<MediaPart>, i: nat, from: nat, offset: nat, limit: nat)
    requires i < |parts|
    ensures HoldAll(parts[..i + 1], limit) == HoldAll(parts[..i], limit) + [Hold(parts[i], limit)]
    ensures NewSegments(parts[..i + 1], from, offset, limit)
            == NewSegments(parts[..i], from, offset, limit)
               + [MediaSegment(Decimal(from + i), parts[i].name, parts[i].mimeType, parts[i].path,
                               Hold(parts[i], limit) != NoData, Some(offset))]
  {
    hide Decimal, Hold;
    assert parts[..i + 1][..i] == parts[..i];
  }

  /** The data `parts` hold within the bound, and their segments, numbered on. */
  method HoldParts(parts: seq<MediaPart>, from: nat, offset: nat, limit: nat)
      returns (data: seq<MediaData>, segments: seq<MediaSegment>)
    ensures data == HoldAll(parts, limit) && segments == NewSegments(parts, from, offset, limit)
  {
    hide HoldAll, NewSegments, Decimal, Hold;
    data, segments := [], [];
    assert parts[..0] == [];
    NoneHeldYet(from, offset, limit);
    for i := 0 to |parts|
      invariant data == HoldAll(parts[..i], limit) && segments == NewSegments(parts[..i], from, offset, limit)
    {
      HeldStep(parts, i, from, offset, limit);
      var part, datum := parts[i], Hold(parts[i], limit);
      data := data + [datum];
      segments := segments + [MediaSegment(Decimal(from + i), part.name, part.mimeType, part.path, datum != NoData, Some(offset))];
    }
    assert parts[..|parts|] == parts;
  }

  lemma NoneHeldYet(from: nat, offset: nat, limit: nat)
    ensures HoldAll([], limit) == [] && NewSegments([], from, offset, limit) == []
  {
  }

  class SessionProjection {
    ghost var base: Snapshot
    ghost var sent: seq<Delta>
    ghost var inserted: seq<Entry>
    var snapshot: Snapshot
    var compactBytes: nat
    var held: Option<ActivityItem>
    var replay: Option<ReplayState>
    var open: Option<(Role, string)>
    var nextLocal: nat
    var details: map<string, Detail>
    var media: map<string, seq<MediaData>>
    var users: map<string, Option<BlockStart>>
    var detailBytes: nat
    const retention: Retention
    const process: ByteCounter

    ghost function State(): Projection
      reads this
    {
      Projection(base, snapshot, sent, inserted, compactBytes, held, replay, open, nextLocal, details, media, users,
                 detailBytes, retention)
    }

    /** The accounts are right, and the process counts this session's share. */
    ghost predicate Valid()
      reads this, process
    {
      Accounted(State()) && detailBytes <= process.bytes
    }

    /** The detail account alone is right. */
    ghost predicate DetailCounted()
      reads this, process
    {
      detailBytes == DetailTotal(State()) && detailBytes <= process.bytes
    }

    /** What the process counts of other sessions. */
    ghost function Others(): int
      reads this, process
    {
      process.bytes - detailBytes
    }

    constructor (connection: Connection, history: HistoryState, replaying: bool, writer: WriterState,
                 retention: Retention, process: ByteCounter)
      ensures State() == NewProjection(connection, history, replaying, writer, retention)
      ensures this.process == process && Valid()
    {
      var first := Snapshot(0, connection, TurnState(None, NoTurn, None, Idle(None)), [], None, history, writer, [], [],
                            None, None);
      snapshot, base, sent, inserted, compactBytes := first, first, [], [], 0;
      held, replay, open, nextLocal := None, if replaying then Some(ReplayState(0, None)) else None, None, 0;
      details, media, users, detailBytes := map[], map[], map[], 0;
      this.retention, this.process := retention, process;
    }

    // ----- Deltas and the turn

    method EmitDelta(change: Change)
      modifies this
      ensures State() == Emit(old(State()), change)
    {
      var delta := Delta(snapshot.seqNo + 1, change);
      snapshot := Applied(snapshot, delta).0;
      sent := sent + [delta];
    }

    method ChangeTurn(turnId: Option<string>, phase: Phase, outcome: Option<StopReason>)
      requires Valid()
      modifies this
      ensures State() == SetTurn(old(State()), turnId, phase, outcome) && Valid() && Others() == old(Others())
    {
      hide Accounted, Emit, StatusOf;
      var status := StatusOf(phase, outcome, snapshot.pending);
      var turn := TurnChange(TurnState(turnId, phase, outcome, status));
      EmitDelta(turn);
      StaysAccounted(old(State()), turn);
    }

    method Refresh()
      requires Valid()
      modifies this
      ensures State() == RefreshStatus(old(State())) && Valid() && Others() == old(Others())
    {
      hide Accounted, SetTurn, StatusOf;
      var turn := snapshot.turn;
      if StatusOf(turn.phase, turn.lastOutcome, snapshot.pending) != turn.status {
        ChangeTurn(turn.turnId, turn.phase, turn.lastOutcome);
      }
    }

    // ----- Detail

    method TrackDetail(bytes: nat)
      modifies this`detailBytes, process
      ensures detailBytes == old(detailBytes) + bytes && process.bytes == old(process.bytes) + bytes
    {
      detailBytes := detailBytes + bytes;
      process.bytes := process.bytes + bytes;
    }

    method UntrackDetail(bytes: nat)
      requires bytes <= detailBytes <= process.bytes
      modifies this`detailBytes, process
      ensures detailBytes == old(detailBytes) - bytes && process.bytes == old(process.bytes) - bytes
    {
      detailBytes := detailBytes - bytes;
      process.bytes := process.bytes - bytes;
    }

    method StoreItemDetail(id: string, detail: Detail) returns (earlier: nat)
      requires Valid()
      modifies this, process
      ensures (State(), earlier) == SetDetail(old(State()), id, detail) && Valid() && Others() == old(Others())
    {
      hide Accounted, DetailTotal, DetailSize;
      CountsDetail(State());
      SetDetailAccounted(State(), id, detail);
      DetailIsHeld(State(), id);
      TrackDetail(DetailSize(detail));
      earlier := if id in details then DetailSize(details[id]) else 0;
      details := details[id := detail];
      UntrackDetail(earlier);
    }

    method TakeItemMedia(id: string) returns (data: seq<MediaData>)
      requires DetailCounted()
      modifies this, process
      ensures (State(), data) == TakeMedia(old(State()), id) && DetailCounted() && Others() == old(Others())
    {
      hide DetailTotal, DataSize;
      DetailIsHeld(State(), id);
      NoDataSums();
      TakenCounts(State(), id);
      data := if id in media then media[id] else [];
      media := media - {id};
      UntrackDetail(DataSize(data));
    }

    method PutItemMedia(id: string, data: seq<MediaData>)
      requires Valid()
      modifies this, process
      ensures State() == PutMedia(old(State()), id, data) && Valid() && Others() == old(Others())
    {
      hide Accounted, DetailTotal, DataSize;
      CountsDetail(State());
      PutMediaAccounted(State(), id, data);
      DetailIsHeld(State(), id);
      TrackDetail(DataSize(data));
      var earlier := if id in media then DataSize(media[id]) else 0;
      media := media[id := data];
      UntrackDetail(earlier);
    }

    method ReleaseItemMedia(id: string) returns (freed: nat)
      requires Valid()
      modifies this, process
      ensures (State(), freed) == ReleaseMedia(old(State()), id) && Valid() && Others() == old(Others())
    {
      hide Accounted, DetailTotal, ReleasedAll, DataSize;
      CountsDetail(State());
      ReleaseMediaAccounted(State(), id);
      DetailIsHeld(State(), id);
      freed := 0;
      if id in media {
        var data;
        data, freed := ReleaseData(media[id]);
        media := media[id := data];
        UntrackDetail(freed);
      }
    }

    // ----- Eviction

    method DropEvicted(id: string)
      requires DetailCounted()
      modifies this, process
      ensures State() == DropItem(old(State()), id) && DetailCounted() && Others() == old(Others())
    {
      hide DetailTotal, DetailSize, DataSize;
      DetailIsHeld(State(), id);
      DroppedCounts(State(), id);
      var size := if id in details then DetailSize(details[id]) else 0;
      details := details - {id};
      UntrackDetail(size);
      var _ := TakeItemMedia(id);
      users := users - {id};
    }

    /** Takes the evicted items out of the compact bytes. */
    method UncountItems(ids: seq<string>)
      requires compactBytes == SumCompact(snapshot.items)
      modifies this`compactBytes
      ensures compactBytes == old(compactBytes) - SizeOf(snapshot.items, ids)
    {
      hide SizeOf, CompactSize, SumCompact;
      var i := 0;
      NoneEvicted(ids);
      while i < |snapshot.items|
        invariant 0 <= i <= |snapshot.items|
        invariant compactBytes == old(compactBytes) - SizeOf(snapshot.items[..i], ids)
      {
        SizeOfStep(snapshot.items[..i + 1], ids);
        assert snapshot.items[..i + 1][..i] == snapshot.items[..i];
        EvictedAreCounted(snapshot.items, ids, i + 1);
        if snapshot.items[i].id in ids { compactBytes := compactBytes - CompactSize(snapshot.items[i]); }
        i := i + 1;
      }
      assert snapshot.items[..i] == snapshot.items;
    }

    method DropAll(ids: seq<string>)
      requires DetailCounted()
      modifies this, process
      ensures State() == DropItems(old(State()), ids) && DetailCounted() && Others() == old(Others())
    {
      hide DetailTotal, DropItem;
      var k := 0;
      while k < |ids|
        invariant 0 <= k <= |ids|
        invariant State() == DropItems(old(State()), ids[..k]) && DetailCounted() && Others() == old(Others())
      {
        assert ids[..k + 1][..k] == ids[..k];
        DropEvicted(ids[k]);
        k := k + 1;
      }
      assert ids[..k] == ids;
    }

    method EvictItems(ids: seq<string>)
      requires Valid()
      modifies this, process
      ensures State() == Evict(old(State()), ids) && Valid() && Others() == old(Others())
    {
      hide Accounted, DetailTotal, SizeOf, DropItems, SumCompact, TurnsOf;
      EvictAccounted(State(), ids);
      CountsDetail(State());
      CountsItems(State());
      UncountItems(ids);
      SameDetail(old(State()), State());
      ghost var q := State();
      DropAll(ids);
      DroppedKeeps(q, ids);
      if open.Some? && open.value.1 in ids { open := None; }
      var history := snapshot.history;
      history := history.(truncatedItems := Some(history.truncatedItems.UnwrapOr(0) + |ids|),
                          truncatedTurns := Some(history.truncatedTurns.UnwrapOr(0) + |TurnsOf(snapshot.items, ids)|));
      EmitDelta(Truncated(ids, history));
    }

    /** `current_turn` */
    function Current(): (turn: Option<string>)
      reads this
      ensures turn == CurrentTurn(State())
    {
      if snapshot.turn.phase != NoTurn then snapshot.turn.turnId
      else match replay case Some(r) => r.turn case None => None
    }

    method EnforceSessionBounds()
      requires Valid()
      modifies this, process
      ensures State() == Enforce(old(State())) && Valid() && Others() == old(Others())
    {
      hide Accounted, Evict, GroupOf;
      while |snapshot.items| > retention.sessionItems || compactBytes > retention.sessionBytes
        invariant Valid() && Others() == old(Others()) && Enforce(State()) == Enforce(old(State()))
        decreases |snapshot.items|
      {
        match FirstOutside(snapshot.items, Current()) {
          case None => return;
          case Some(oldest) =>
            var ids := GroupOf(snapshot.items, snapshot.items[oldest]);
            EvictionShrinks(State(), oldest);
            EvictItems(ids);
        }
      }
    }

    // ----- Items

    /** Replaces the item of that id, or adds it, and counts its bytes. */
    method PutInList(item: ActivityItem)
      requires Valid()
      modifies this
      ensures State() == PutItem(old(State()), item) && Valid() && Others() == old(Others())
    {
      hide Accounted, CompactSize;
      PutItemAccounted(State(), item);
      CountsItems(State());
      var known := IndexOf(snapshot.items, item.id);
      var earlier := 0;
      if known.Some? {
        ItemIsCounted(snapshot.items, known.value);
        earlier := CompactSize(snapshot.items[known.value]);
      } else {
        inserted := inserted + [Entry(item.id, item.turnId)];
      }
      compactBytes := compactBytes - earlier + CompactSize(item);
      EmitDelta(ItemChange(item));
    }

    /** `upsert` */
    method UpsertItem(item: ActivityItem)
      requires Valid()
      modifies this, process
      ensures State() == Upsert(old(State()), item) && Valid() && Others() == old(Others())
      decreases if held.Some? then 1 else 0, 1
    {
      hide Accounted, PutItem, ShowHeld, Enforce;
      ShowHeldUser(Some(item.id));
      PutInList(item);
      EnforceSessionBounds();
    }

    method ShowHeldUser(except: Option<string>)
      requires Valid()
      modifies this, process
      ensures State() == ShowHeld(old(State()), except) && Valid() && Others() == old(Others())
      decreases if held.Some? then 1 else 0, 0
    {
      hide Accounted, Enforce, PutItem;
      if held.Some? && except != Some(held.value.id) {
        var item := held.value;
        held := None;
        SameAccounted(old(State()), State());
        UpsertItem(item);
      }
    }

    // ----- Text items

    /** `text_item` */
    method MakeTextItem(id: string, kind: ItemKind, block: DetailBlock) returns (item: ActivityItem)
      ensures item == TextItem(State(), id, kind, block)
    {
      hide Bytes, CurrentTurn;
      var head, excerpted := "", false;
      match block {
        case TextBlock(text) => head := text;
        case Excerpt(h, _, _) => head, excerpted := h, true;
        case _ =>
      }
      var turn := Current();
      var known := IndexOf(snapshot.items, id);
      if known.Some? { turn := snapshot.items[known.value].turnId; }
      item := ActivityItem(id, turn, kind, None, Bounded(head, SUMMARY_LIMIT), excerpted || Bytes(head) > SUMMARY_LIMIT);
    }

    /** `put_text_block` */
    method PutText(id: string, kind: ItemKind, block: DetailBlock)
      requires Valid()
      modifies this, process
      ensures State() == PutTextBlock(old(State()), id, kind, block) && Valid() && Others() == old(Others())
    {
      hide Accounted, TextItem, SetDetail, Upsert, BlockSize;
      var item := MakeTextItem(id, kind, block);
      var _ := StoreItemDetail(id, Blocks([block], BlockSize(block)));
      UpsertItem(item);
    }

    /** Stores a user text and its detail, which no message is held back for. */
    method StoreUserText(id: string, user: Option<BlockStart>, block: DetailBlock)
      requires Valid()
      modifies this, process
      ensures var p := old(State());
              State() == SetDetail(p.(users := p.users[id := user]), id,
                                   Blocks([block], BlockSize(block) + UserSize(user))).0.(held := None)
      ensures Valid() && Others() == old(Others())
    {
      hide Accounted, SetDetail, BlockSize, UserSize;
      users := users[id := user];
      SameAccounted(old(State()), State());
      var _ := StoreItemDetail(id, Blocks([block], BlockSize(block) + UserSize(user)));
      ghost var p := State();
      held := None;
      SameAccounted(p, State());
    }

    /** `put_user_message` */
    method PutUser(id: string, user: Option<BlockStart>, block: DetailBlock, segments: seq<Segment>)
      requires Valid() && CanShow(user, block)
      modifies this, process
      ensures State() == PutUserMessage(old(State()), id, user, block, segments) && Valid() && Others() == old(Others())
    {
      hide Accounted, TextItem, SetDetail, Upsert, BlockSize, UserSize, Shown, ShowHeld, StripBlock, CanShow, IndexOf;
      ShowHeldUser(Some(id));
      var (text, removed) := Shown(user, block);
      var item := MakeTextItem(id, UserMessage(segments), text);
      TextItemIs(State(), id, UserMessage(segments), text);
      var shown := IndexOf(snapshot.items, id).Some?;
      var empty := removed > 0 && item.summary == "" && segments == [];
      var blockStart := replay.Some? && !shown && segments == [] && block.TextBlock? && StripBlock(block.text, Cut) == "";
      StoreUserText(id, user, block);
      ghost var q := State();
      if blockStart && !empty {
        held := Some(item);
        SameAccounted(q, State());
      } else if !empty || shown {
        UpsertItem(item);
      }
    }

    // ----- Turns

    /** `begin_turn`; false while a turn is active */
    method StartTurn(turnId: string, text: string, segments: seq<Segment>) returns (begun: bool)
      requires Valid()
      modifies this, process
      ensures begun == !TurnActive(old(State()))
      ensures State() == if begun then BeginTurn(old(State()), turnId, text, segments) else old(State())
      ensures Valid() && Others() == old(Others())
    {
      hide Accounted, SetTurn, Extend, PutUserMessage;
      if snapshot.turn.phase != NoTurn { return false; }
      open := None;
      SameAccounted(old(State()), State());
      ChangeTurn(Some(turnId), InTurn, None);
      var (user, block) := Extend(None, TextBlock(""), text, retention.itemDetail);
      ExtendHolds(None, TextBlock(""), text, retention.itemDetail);
      PutUser("user:" + turnId, user, block, segments);
      begun := true;
    }

    method RequestCancel()
      requires Valid()
      modifies this
      ensures State() == CancellingTurn(old(State())) && Valid() && Others() == old(Others())
    {
      hide Accounted, SetTurn;
      if snapshot.turn.phase == InTurn {
        ChangeTurn(snapshot.turn.turnId, Cancelling, snapshot.turn.lastOutcome);
      }
    }

    method ShowRequest(pending: PendingInteraction)
      requires Valid()
      modifies this
      ensures State() == SetPending(old(State()), pending) && Valid() && Others() == old(Others())
    {
      hide Accounted, Emit, RefreshStatus;
      EmitDelta(PendingChange(pending));
      StaysAccounted(old(State()), PendingChange(pending));
      Refresh();
    }

    /** `resolve_pending` */
    method ResolveRequest(id: string, state: InteractionState, answer: Option<Answer>)
      requires Valid()
      modifies this, process
      ensures State() == ResolvePending(old(State()), id, state, answer) && Valid() && Others() == old(Others())
    {
      hide Accounted, Emit, Upsert, RefreshStatus, CaptionOf, CurrentTurn;
      if snapshot.pending.None? || snapshot.pending.value.id != id { return; }
      var pending := snapshot.pending.value.(state := state);
      var option := match answer case Some(ChooseOption(o)) => CaptionOf(pending.options, o) case _ => None;
      var record := ActivityItem(pending.id, Current(),
                                 Interaction(pending.kind, state, pending.toolCallId, option, answer == Some(Decline)),
                                 None, Bounded(pending.title, SUMMARY_LIMIT), false);
      EmitDelta(PendingChange(pending));
      StaysAccounted(old(State()), PendingChange(pending));
      UpsertItem(record);
      Refresh();
    }

    method CloseRequest(state: InteractionState)
      requires Valid()
      modifies this, process
      ensures State() == ClosePending(old(State()), state) && Valid() && Others() == old(Others())
    {
      hide Accounted, ResolvePending;
      if snapshot.pending.Some? { ResolveRequest(snapshot.pending.value.id, state, None); }
    }

    method TakeLocalId(scope: string, kind: string) returns (id: string)
      requires Valid()
      modifies this
      ensures (State(), id) == NextLocalId(old(State()), scope, kind) && Valid() && Others() == old(Others())
    {
      hide Accounted, Decimal;
      nextLocal := nextLocal + 1;
      SameAccounted(old(State()), State());
      id := scope + ":" + kind + ":" + Decimal(nextLocal);
    }

    /** `finish_turn` */
    method CloseTurn(turnId: string, reason: StopReason, error: Option<string>)
      requires Valid()
      modifies this, process
      ensures State() == FinishTurn(old(State()), turnId, reason, error) && Valid() && Others() == old(Others())
    {
      hide Accounted, ClosePending, PutTextBlock, Upsert, SetTurn, ExcerptOf, NextLocalId;
      if snapshot.turn.phase == NoTurn || snapshot.turn.turnId != Some(turnId) { return; }
      CloseRequest(PendingOutcome(reason));
      ghost var p := State();
      open := None;
      SameAccounted(p, State());
      if error.Some? {
        var id := TakeLocalId(turnId, "error");
        PutText(id, ErrorItem, ExcerptOf(error.value, retention.itemDetail));
      }
      UpsertItem(OutcomeItem(turnId, reason));
      ChangeTurn(Some(turnId), NoTurn, Some(reason));
    }

    method InterruptSession()
      requires Valid()
      modifies this, process
      ensures State() == InterruptTurn(old(State())) && Valid() && Others() == old(Others())
    {
      hide Accounted, FinishTurn, ClosePending, CurrentTurn;
      match Current() {
        case Some(turnId) => CloseTurn(turnId, TurnInterrupted, None);
        case None => CloseRequest(Expired);
      }
    }

    method CompleteReplay()
      requires Valid()
      modifies this, process
      ensures State() == EndReplay(old(State())) && Valid() && Others() == old(Others())
    {
      hide Accounted, ShowHeld;
      ShowHeldUser(None);
      ghost var p := State();
      replay, open := None, None;
      SameAccounted(p, State());
    }

    method StartReplayTurn()
      requires Valid()
      modifies this
      ensures State() == NextReplayTurn(old(State())) && Valid() && Others() == old(Others())
    {
      hide Accounted, ReplayName;
      if replay.Some? {
        var turns := replay.value.turns + 1;
        replay := Some(ReplayState(turns, Some(ReplayName(turns))));
      }
      open := None;
      SameAccounted(old(State()), State());
    }

    // ----- What the agent sends

    /** `append_message`, unless it panics */
    method AppendChunk(role: Role, messageId: Option<string>, text: string, segments: seq<Segment>, parts: seq<MediaPart>)
      requires Valid()
      requires var (q, id) := Addressed(State(), role, messageId); !Misfits(q, role, id, text)
      modifies this, process
      ensures State() == AppendMessage(old(State()), role, messageId, text, segments, parts)
      ensures Valid() && Others() == old(Others())
    {
      hide Accounted, AppendTo, Misfits, KnownText, NextReplayTurn, NextLocalId, CurrentTurn;
      if role == User && replay.Some? {
        var continues := open.Some? && open.value.0 == User && (messageId.None? || messageId == Some(open.value.1));
        if !continues { StartReplayTurn(); }
      }
      var id;
      if messageId.Some? {
        id := messageId.value;
      } else if open.Some? && open.value.0 == role {
        id := open.value.1;
      } else {
        id := TakeLocalId(Current().UnwrapOr("session"), "message");
      }
      ghost var p := State();
      open := Some((role, id));
      SameAccounted(p, State());
      AppendToMessage(role, id, text, segments, parts);
    }

    method AppendToMessage(role: Role, id: string, text: string, segments: seq<Segment>, parts: seq<MediaPart>)
      requires Valid() && !Misfits(State(), role, id, text)
      modifies this, process
      ensures State() == AppendTo(old(State()), role, id, text, segments, parts)
      ensures Valid() && Others() == old(Others())
    {
      hide Accounted, CanShow, Extend, PutUserMessage, ExtendMedia, PutTextBlock, ExtendText;
      var known := TextBlock("");
      if id in details {
        match details[id] {
          case Blocks(blocks, _) =>
            if blocks != [] && (blocks[0].TextBlock? || blocks[0].Excerpt?) { known := blocks[0]; }
          case _ => return;
        }
      }
      match role {
        case User =>
          var user := if id in users then users[id] else None;
          var (extended, block) := Extend(user, known, text, retention.itemDetail);
          users := users - {id};
          SameAccounted(old(State()), State());
          PutUser(id, extended, block, segments);
        case Agent =>
          var media := ExtendMessageMedia(id, known, text, parts);
          PutText(id, AgentMessage(media), ExtendText(known, text, NO_LIMIT));
        case Thought =>
          PutText(id, Reasoning, ExtendText(known, text, retention.itemDetail));
      }
    }

    /** `extend_message_media` */
    method ExtendMessageMedia(id: string, known: DetailBlock, text: string, parts: seq<MediaPart>)
        returns (segments: seq<MediaSegment>)
      requires Valid()
      modifies this, process
      ensures (State(), segments) == ExtendMedia(old(State()), id, parts, PlaceAfter(known, text))
      ensures Valid() && Others() == old(Others())
    {
      hide Accounted, DetailTotal, TakeMedia, PutMedia, NewSegments, HoldAll, MediaOf;
      segments := KnownMedia(id);
      if parts == [] { return; }
      var offset := Utf16Length(known) + Utf16(text);
      CountsDetail(State());
      TakeMediaAccounted(State(), id);
      var data := TakeItemMedia(id);
      var held, made := HoldParts(parts, |segments|, offset, retention.mediaItem);
      PutItemMedia(id, data + held);
      segments := segments + made;
    }

    method KnownMedia(id: string) returns (segments: seq<MediaSegment>)
      ensures segments == MediaOf(State(), id)
    {
      segments := [];
      var known := IndexOf(snapshot.items, id);
      if known.Some? {
        match snapshot.items[known.value].kind {
          case AgentMessage(media) => segments := media;
          case _ =>
        }
      }
    }

    /** `upsert_tool` */
    method MergeTool(update: ToolUpdate)
      requires Valid()
      modifies this, process
      ensures State() == UpsertTool(old(State()), update) && Valid() && Others() == old(Others())
    {
      hide Accounted, DetailTotal, TakeMedia, PutMedia, HoldAll, SetDetail, BoundedBlocks, Upsert, CurrentTurn;
      open := None;
      SameAccounted(old(State()), State());
      var item := MakeToolItem(update);
      SameTool(old(State()), State(), update);
      if update.media.Some? {
        CountsDetail(State());
        TakeMediaAccounted(State(), update.id);
        var _ := TakeItemMedia(update.id);
        PutItemMedia(update.id, HoldAll(update.media.value, retention.mediaItem));
      }
      if update.blocks.Some? {
        var detail := match BoundedBlocks(update.blocks.value, retention.itemDetail)
                      case Kept(kept, size) => Blocks(kept, size)
                      case TooLarge => TooLargeDetail;
        var _ := StoreItemDetail(update.id, detail);
      }
      UpsertItem(item);
    }

    method MakeToolItem(update: ToolUpdate) returns (item: ActivityItem)
      ensures item == ToolItem(State(), update)
    {
      hide Bytes, CurrentTurn;
      var known := IndexOf(snapshot.items, update.id);
      var turn, status, summary, hasDetail := Current(), Some(ItemPending), "", false;
      if known.Some? {
        var item := snapshot.items[known.value];
        turn, status, summary, hasDetail := item.turnId, item.status, item.summary, item.hasDetail;
      }
      if update.status.Some? { status := update.status; }
      if update.title.Some? { summary := Bounded(update.title.value, SUMMARY_LIMIT); }
      if update.blocks.Some? { hasDetail := update.blocks.value != []; }
      item := ActivityItem(update.id, turn, update.kind, status, summary, hasDetail);
    }

    /** `put_plan` */
    method ShowPlan(entries: seq<string>)
      requires Valid()
      modifies this, process
      ensures State() == PutPlan(old(State()), entries) && Valid() && Others() == old(Others())
    {
      hide Accounted, Upsert, CurrentTurn;
      open := None;
      SameAccounted(old(State()), State());
      SameCurrent(old(State()), State());
      var turn := Current();
      UpsertItem(ActivityItem("plan:" + turn.UnwrapOr("session"), turn, Plan(entries), None, "", false));
    }

    method ChangeSettings(settings: seq<Setting>)
      requires Valid()
      modifies this
      ensures State() == SetSettings(old(State()), settings) && Valid() && Others() == old(Others())
    {
      hide Accounted, Emit;
      if snapshot.settings != settings {
        EmitDelta(SettingsChange(settings));
        StaysAccounted(old(State()), SettingsChange(settings));
      }
    }

    method ShowSetting(settings: seq<Setting>, scope: string, kind: ItemKind, text: string)
      requires Valid()
      modifies this, process
      ensures State() == PutSettingItem(old(State()), settings, scope, kind, text) && Valid() && Others() == old(Others())
    {
      hide Accounted, SetSettings, NextLocalId, PutTextBlock, ExcerptOf;
      ChangeSettings(settings);
      var id := TakeLocalId("session", scope);
      PutText(id, kind, ExcerptOf(text, retention.itemDetail));
    }

    method ShowGeneric(what: string)
      requires Valid()
      modifies this, process
      ensures State() == PutGeneric(old(State()), what) && Valid() && Others() == old(Others())
    {
      hide Accounted, Upsert, CurrentTurn, Decimal;
      var turn := Current();
      var id := TakeLocalId("session", "generic");
      UpsertItem(ActivityItem(id, turn, Generic(what), None, "", false));
    }

    method ChangeWriter(writer: WriterState)
      requires Valid()
      modifies this
      ensures State() == SetWriter(old(State()), writer) && Valid() && Others() == old(Others())
    {
      hide Accounted, Emit;
      if snapshot.writer != writer {
        EmitDelta(WriterChange(writer));
        StaysAccounted(old(State()), WriterChange(writer));
      }
    }

    // ----- Releasing detail

    method ReleaseOne(id: string, textHeld: bool) returns (freed: nat)
      requires Valid()
      modifies this, process
      ensures (State(), freed) == ReleaseItem(old(State()), id, textHeld) && Valid() && Others() == old(Others())
    {
      hide Accounted, DetailSize, SetDetail, ReleaseMedia;
      freed := 0;
      if !textHeld && id in details && DetailSize(details[id]) > 0 {
        if id in users { users := users[id := None]; }
        SameAccounted(old(State()), State());
        freed := StoreItemDetail(id, ReleasedDetail);
      }
      var data := ReleaseItemMedia(id);
      freed := freed + data;
    }

    /** `release_detail` */
    method FreeDetail(need: nat) returns (freed: nat)
      requires Valid()
      modifies this, process
      ensures (State(), freed) == ReleaseDetail(old(State()), need) && Valid() && Others() == old(Others())
    {
      hide Accounted, ReleaseItem, Candidates, CurrentTurn;
      var candidates := Candidates(snapshot.items, Current());
      freed := 0;
      var i := 0;
      while i < |candidates| && freed < need
        invariant 0 <= i <= |candidates| && Valid() && Others() == old(Others())
        invariant ReleaseEach(State(), candidates[i..], need, freed) == ReleaseEach(old(State()), candidates, need, 0)
      {
        var more := ReleaseOne(candidates[i].0, candidates[i].1);
        freed := freed + more;
        i := i + 1;
      }
    }

    /** `detail`, unless it panics */
    method DetailOf(id: string) returns (outcome: DetailOutcome)
      requires !LookupMisfits(State(), id)
      ensures outcome == LookUp(State(), id)
    {
      hide CanShow, Shown;
      if id in details {
        match details[id] {
          case Blocks(blocks, _) =>
            if id !in users { return Available(blocks); }
            var shown := [];
            var i := 0;
            while i < |blocks|
              invariant 0 <= i <= |blocks| && shown == ShownBlocks(users[id], blocks[..i])
            {
              assert blocks[..i + 1][..i] == blocks[..i];
              shown := shown + [Shown(users[id], blocks[i]).0];
              i := i + 1;
            }
            assert blocks[..i] == blocks;
            return Available(shown);
          case TooLargeDetail => return Unavailable(WasTooLarge);
          case ReleasedDetail => return Unavailable(WasReleased);
        }
      }
      var known := IndexOf(snapshot.items, id);
      outcome := if known.Some? then Unavailable(NotProvided) else NoSuchItem;
    }

    /** Dropping a session's projection takes exactly its share off the count. */
    method Drop()
      requires Valid()
      modifies process
      ensures process.bytes == old(process.bytes) - detailBytes == old(Others())
    {
      process.bytes := process.bytes - detailBytes;
    }
  }

  lemma SameTool(p: Projection, q: Projection, update: ToolUpdate)
    requires q == p.(open := None)
    ensures ToolItem(q, update) == ToolItem(p, update)
  {
    hide Bytes;
  }

  lemma SameCurrent(p: Projection, q: Projection)
    requires q == p.(open := None)
    ensures CurrentTurn(q) == CurrentTurn(p)
  {
  }

  lemma TextItemIs(p: Projection, id: string, kind: ItemKind, block: DetailBlock)
    ensures TextItem(p, id, kind, block).id == id && TextItem(p, id, kind, block).kind == kind
  {
    hide Bytes, CurrentTurn;
  }

  lemma DroppedCounts(p: Projection, id: string)
    requires p.detailBytes == DetailTotal(p)
    ensures DropItem(p, id).detailBytes == DetailTotal(DropItem(p, id))
    ensures var q := p.(details := p.details - {id},
                        detailBytes := p.detailBytes - (if id in p.details then DetailSize(p.details[id]) else 0));
            q.detailBytes == DetailTotal(q)
  {
    hide DetailSize, Total, TakeMedia;
    DropItemTotal(p, id);
    TotalLess(p.details, DetailSize, id);
  }

  lemma NoneEvicted(ids: seq<string>)
    ensures SizeOf([], ids) == 0
  {
  }

  lemma CountsItems(p: Projection)
    requires Accounted(p)
    ensures p.compactBytes == SumCompact(p.snapshot.items)
  {
  }

  lemma SameDetail(p: Projection, q: Projection)
    requires q == p.(compactBytes := q.compactBytes)
    ensures DetailTotal(q) == DetailTotal(p)
  {
  }

  lemma EvictionShrinks(p: Projection, oldest: nat)
    requires OverBounds(p) && FirstOutside(p.snapshot.items, CurrentTurn(p)) == Some(oldest)
    ensures var q := Evict(p, GroupOf(p.snapshot.items, p.snapshot.items[oldest]));
            Enforce(q) == Enforce(p) && |q.snapshot.items| < |p.snapshot.items|
  {
    hide Evict, GroupOf, OverBounds, CurrentTurn;
    var items := p.snapshot.items;
    var ids := GroupOf(items, items[oldest]);
    EvictedItems(p, ids);
    GroupHasItem(items, items[oldest]);
    WithoutIsShorter(items, ids);
  }

  lemma StaysAccounted(p: Projection, change: Change)
    requires Accounted(p) && !change.ItemChange? && !change.Truncated?
    ensures Accounted(Emit(p, change)) && Emit(p, change).detailBytes == p.detailBytes
  {
    hide Accounted;
    SameAccounted(p, Emit(p, change));
  }
}
