/** What the code panics on: a user message that ends in a block, whose start was
    found in a head the message is no longer held with, when a chunk completes
    the block or the message is looked up. Exactly when that is, that it never
    is while ids keep apart, and runs to it. */
module HeadSlices {
  import opened Text
  import opened RoutineBlock
  import opened BlockScan
  import opened RoutinePrompt
  import BlockLiveness
  import opened DetailText
  import opened UserTexts
  import opened Activity
  import opened Projection
  import opened Accounting
  import opened TurnRetention
  import opened Survival
  import opened ProjectionRuns

  // ----- Exactly when the code panics

  /** With `text` the block held of message `id` is whole, and it starts inside
      a character of the head held of the message, or past its end. */
  predicate Slices(p: Projection, id: string, text: string) {
    match KnownText(p, id)
    case Some(Excerpt(head, _, _)) =>
      (match UserOf(p, id)
       case Some(b) =>
         b.before.InHead? && ScanEnd(Read(b.scan, text)) == Some(Whole) && !IsCharBoundary(head, b.before.start)
       case None => false)
    case _ => false
  }

  lemma WholeIsAlive(s: Scan)
    requires ScanEnd(s) == Some(Whole)
    ensures IsAlive(s)
  {
    hide BlockMarkers;
  }

  lemma FreshStartsAfter(block: Option<BlockStart>, omitted: nat, window: string, more: string, limit: nat)
    ensures var next := NextBlockStart(block, omitted, window, more, limit);
            if block.Some? && IsAlive(Read(block.value.scan, more))
            then next == Some(block.value.(scan := Read(block.value.scan, more)))
            else next.Some? ==> next.value.before.After?
  {
    hide BeforeOf, LiveStart, Read, IsAlive;
  }

  lemma MisfitsExactly(p: Projection, role: Role, id: string, text: string)
    ensures Misfits(p, role, id, text) <==> role == User && Slices(p, id, text)
  {
    hide KnownText, UserOf, Read, IsAlive, ScanEnd, IsCharBoundary, NextBlockStart, FirstBlockStart, TailStart;
    var limit, user := p.retention.itemDetail, UserOf(p, id);
    match KnownText(p, id)
    case None =>
    case Some(known) =>
      match known
      case TextBlock(_) => FreshHolds(user, known, text, limit);
      case Excerpt(head, omitted, tail) =>
        FreshStartsAfter(user, omitted, tail + text, text, limit);
        if user.Some? && ScanEnd(Read(user.value.scan, text)) == Some(Whole) { WholeIsAlive(Read(user.value.scan, text)); }
      case _ =>
  }

  lemma FreshHolds(user: Option<BlockStart>, known: DetailBlock, text: string, limit: nat)
    requires known.TextBlock?
    ensures CanShow(Extend(user, known, text, limit).0, Extend(user, known, text, limit).1)
  {
    hide Extend, CanShow, HeadHolds;
    TextHolds(user, known);
    ExtendHolds(user, known, text, limit);
  }

  lemma TextHolds(user: Option<BlockStart>, known: DetailBlock)
    requires known.TextBlock?
    ensures HeadHolds(user, known)
  {
  }

  /** The block held of message `id` is whole, and it starts inside a character
      of a head held of the message, or past its end. */
  ghost predicate LookSlices(p: Projection, id: string) {
    && id in p.details && p.details[id].Blocks?
    && match UserOf(p, id)
       case Some(b) =>
         && b.before.InHead? && ScanEnd(b.scan) == Some(Whole)
         && exists block :: block in p.details[id].blocks && block.Excerpt? && !IsCharBoundary(block.head, b.before.start)
       case None => false
  }

  lemma LooksExactly(p: Projection, id: string)
    ensures LookupMisfits(p, id) <==> LookSlices(p, id)
  {
    hide ScanEnd, IsCharBoundary;
    if LookSlices(p, id) {
      var blocks, start := p.details[id].blocks, p.users[id].value.before.start;
      var block :| block in blocks && block.Excerpt? && !IsCharBoundary(block.head, start);
      var i :| 0 <= i < |blocks| && blocks[i] == block;
      assert !CanShow(p.users[id], blocks[i]);
    }
  }

  /** An action panics exactly when it is a chunk of a user message or a lookup
      that slices a head held of the message, which can be told before. */
  lemma PanicsExactly(p: Projection, action: Action)
    ensures Panics(p, action) <==>
              match action
              case Message(role, messageId, text, _, _) => role == User && Slices(p, Addressed(p, User, messageId).1, text)
              case Look(id) => LookSlices(p, id)
              case _ => false
  {
    hide Addressed, Misfits, Slices, LookSlices, LookupMisfits;
    match action
    case Message(role, messageId, text, _, _) =>
      var (q, id) := Addressed(p, role, messageId);
      MisfitsExactly(q, role, id, text);
      AddressedKnows(p, role, messageId);
      SameSlices(p, q, id, text);
    case Look(id) => LooksExactly(p, id);
    case _ =>
  }

  lemma AddressedKnows(p: Projection, role: Role, messageId: Option<string>)
    ensures var q := Addressed(p, role, messageId).0;
            && q.users == p.users && q.details == p.details && q.snapshot == p.snapshot && q.held == p.held
            && q.compactBytes == p.compactBytes && q.retention == p.retention
  {
    hide Decimal, Continues, CurrentTurn, ReplayName;
  }

  lemma SameSlices(p: Projection, q: Projection, id: string, text: string)
    requires q.users == p.users && q.details == p.details
    ensures Slices(q, id, text) == Slices(p, id, text)
  {
    hide ScanEnd, Read, IsCharBoundary;
  }

  // ----- While ids keep apart

  /** A block start is held of message `id` only beside one excerpt, in whose
      head it is a character's, if it is in any head. */
  predicate Fit(p: Projection, id: string) {
    UserOf(p, id).Some? ==>
      && id in p.details
      && match p.details[id]
         case Blocks(blocks, _) => |blocks| == 1 && blocks[0].Excerpt? && HeadHolds(UserOf(p, id), blocks[0])
         case _ => true
  }

  ghost predicate UsersFit(p: Projection) {
    forall id :: Fit(p, id)
  }

  /** The user texts of `p` stay as they fit, or are dropped. */
  ghost predicate Leaves(p: Projection, q: Projection) {
    q.users.Keys <= p.users.Keys && forall id :: Fit(p, id) ==> Fit(q, id)
  }

  lemma FittingNeverSlices(p: Projection, id: string, text: string)
    requires Fit(p, id)
    ensures !Slices(p, id, text)
  {
    hide ScanEnd, Read, IsCharBoundary;
  }

  lemma FittingNeverHides(p: Projection, id: string)
    requires Fit(p, id)
    ensures !LookSlices(p, id)
  {
    hide ScanEnd, IsCharBoundary;
  }

  lemma SameLeaves(p: Projection, q: Projection)
    requires q.users == p.users && q.details == p.details
    ensures Leaves(p, q)
  {
    hide HeadHolds;
    forall id | Fit(p, id) ensures Fit(q, id) {
      assert UserOf(q, id) == UserOf(p, id);
    }
  }

  lemma LeavesThen(p: Projection, q: Projection, r: Projection)
    requires Leaves(p, q) && Leaves(q, r)
    ensures Leaves(p, r)
  {
    hide Fit;
  }

  lemma LeavesFit(p: Projection, q: Projection)
    requires Leaves(p, q) && UsersFit(p)
    ensures UsersFit(q)
  {
    hide Fit;
    forall id ensures Fit(q, id) {
      assert Fit(p, id);
    }
  }

  /** Nothing is known less of a user message that keeps its text. */
  lemma FewerLeaves(p: Projection, q: Projection)
    requires q.users.Keys <= p.users.Keys
    requires forall id :: id in q.users ==> q.users[id] == p.users[id] && SameDetail(p, q, id)
    ensures Leaves(p, q)
  {
    hide HeadHolds;
  }

  predicate SameDetail(p: Projection, q: Projection, id: string) {
    (id in q.details <==> id in p.details) && (id in p.details ==> q.details[id] == p.details[id])
  }

  lemma {:induction false} DropUsers(p: Projection, ids: seq<string>)
    ensures DropItems(p, ids).users.Keys <= p.users.Keys
    ensures forall id :: id in DropItems(p, ids).users ==>
              && DropItems(p, ids).users[id] == p.users[id]
              && SameDetail(p, DropItems(p, ids), id)
  {
    if ids != [] { DropUsers(p, ids[..|ids| - 1]); }
  }

  lemma EvictLeaves(p: Projection, ids: seq<string>)
    ensures Leaves(p, Evict(p, ids))
  {
    hide SizeOf, DropItems, EvictedHistory, Leaves;
    DropUsers(p.(compactBytes := p.compactBytes - SizeOf(p.snapshot.items, ids)), ids);
    FewerLeaves(p, Evict(p, ids));
  }

  lemma {:induction false} EnforceLeaves(p: Projection)
    ensures Leaves(p, Enforce(p))
    decreases |p.snapshot.items|
  {
    hide Evict, GroupOf, OverBounds, CurrentTurn, Leaves;
    SameLeaves(p, p);
    if OverBounds(p) && FirstOutside(p.snapshot.items, CurrentTurn(p)).Some? {
      var items := p.snapshot.items;
      var item := items[FirstOutside(items, CurrentTurn(p)).value];
      var ids := GroupOf(items, item);
      EvictParts(p, ids);
      GroupHasItem(items, item);
      WithoutIsShorter(items, ids);
      EvictLeaves(p, ids);
      EnforceLeaves(Evict(p, ids));
      LeavesThen(p, Evict(p, ids), Enforce(Evict(p, ids)));
    }
  }

  lemma PutLeaves(p: Projection, item: ActivityItem)
    ensures PutItem(p, item).users == p.users && PutItem(p, item).details == p.details
  {
    hide CompactSize;
  }

  lemma PutEnforcedLeaves(p: Projection, q: Projection, item: ActivityItem)
    requires q.users == p.users && q.details == p.details
    ensures Leaves(p, Enforce(PutItem(q, item)))
  {
    hide *;
    PutLeaves(q, item);
    SameLeaves(p, PutItem(q, item));
    EnforceLeaves(PutItem(q, item));
    LeavesThen(p, PutItem(q, item), Enforce(PutItem(q, item)));
  }

  lemma ShowHeldLeaves(p: Projection, except: Option<string>)
    ensures Leaves(p, ShowHeld(p, except))
  {
    hide PutItem, Enforce, Leaves;
    SameLeaves(p, p);
    if p.held.Some? { PutEnforcedLeaves(p, p.(held := None), p.held.value); }
  }

  lemma UpsertLeaves(p: Projection, item: ActivityItem)
    ensures Leaves(p, Upsert(p, item))
  {
    hide PutItem, Enforce, Leaves, ShowHeld;
    ShowHeldLeaves(p, Some(item.id));
    PutEnforcedLeaves(ShowHeld(p, Some(item.id)), ShowHeld(p, Some(item.id)), item);
    LeavesThen(p, ShowHeld(p, Some(item.id)), Upsert(p, item));
  }

  /** Detail of an item that is no user message. */
  lemma SetDetailLeaves(p: Projection, id: string, detail: Detail)
    requires id !in p.users
    ensures Leaves(p, SetDetail(p, id, detail).0)
  {
    hide HeadHolds, DetailSize;
    var q := SetDetail(p, id, detail).0;
    forall other | Fit(p, other) ensures Fit(q, other) {
      if other != id { assert UserOf(q, other) == UserOf(p, other); }
      else { NoneHolds(q, id); }
    }
  }

  lemma NoneHolds(p: Projection, id: string)
    requires UserOf(p, id).None?
    ensures Fit(p, id)
  {
  }

  lemma PutTextLeaves(p: Projection, id: string, kind: ItemKind, block: DetailBlock)
    requires id !in p.users
    ensures Leaves(p, PutTextBlock(p, id, kind, block))
  {
    hide Leaves, SetDetail, TextItem, Upsert, BlockSize;
    var q := SetDetail(p, id, Blocks([block], BlockSize(block))).0;
    SetDetailLeaves(p, id, Blocks([block], BlockSize(block)));
    UpsertLeaves(q, TextItem(p, id, kind, block));
    LeavesThen(p, q, Upsert(q, TextItem(p, id, kind, block)));
  }

  lemma ThenPutText(p: Projection, q: Projection, id: string, kind: ItemKind, block: DetailBlock)
    requires q.users == p.users && q.details == p.details && id !in p.users
    ensures Leaves(p, PutTextBlock(q, id, kind, block))
  {
    hide *;
    SameLeaves(p, q);
    PutTextLeaves(q, id, kind, block);
    LeavesThen(p, q, PutTextBlock(q, id, kind, block));
  }

  lemma ThenPut(p: Projection, q: Projection, item: ActivityItem)
    requires q.users == p.users && q.details == p.details
    ensures Leaves(p, Upsert(q, item))
  {
    hide *;
    SameLeaves(p, q);
    UpsertLeaves(q, item);
    LeavesThen(p, q, Upsert(q, item));
  }

  lemma ThenSame(p: Projection, q: Projection, r: Projection)
    requires Leaves(p, q) && r.users == q.users && r.details == q.details
    ensures Leaves(p, r)
  {
    hide *;
    SameLeaves(q, r);
    LeavesThen(p, q, r);
  }

  // ----- User messages

  /** What an extended user text is held beside. */
  ghost predicate IsBeside(user: Option<BlockStart>, block: DetailBlock) {
    HeadHolds(user, block) && (user.Some? ==> block.Excerpt?)
  }

  lemma StoredFits(p: Projection, id: string, user: Option<BlockStart>, block: DetailBlock, size: nat)
    requires UsersFit(p) && IsBeside(user, block)
    ensures UsersFit(SetDetail(p.(users := p.users[id := user]), id, Blocks([block], size)).0)
  {
    hide HeadHolds;
    var q := SetDetail(p.(users := p.users[id := user]), id, Blocks([block], size)).0;
    forall other ensures Fit(q, other) {
      assert Fit(p, other);
    }
  }

  lemma ExtendBeside(user: Option<BlockStart>, known: DetailBlock, more: string, limit: nat)
    requires IsBeside(user, known)
    ensures IsBeside(Extend(user, known, more, limit).0, Extend(user, known, more, limit).1)
    ensures CanShow(Extend(user, known, more, limit).0, Extend(user, known, more, limit).1)
  {
    hide HeadHolds, CanShow, NextBlockStart, FirstBlockStart, TailStart, HeadEnd, NewestBudget, Bytes;
    ExtendHolds(user, known, more, limit);
  }

  lemma PutUserFits(p: Projection, id: string, user: Option<BlockStart>, block: DetailBlock, segments: seq<Segment>)
    requires UsersFit(p) && IsBeside(user, block) && CanShow(user, block)
    ensures UsersFit(PutUserMessage(p, id, user, block, segments))
  {
    hide UsersFit, ShowHeld, SetDetail, TextItem, Upsert, BlockSize, UserSize, Shown, ShowingOf, IsBeside, Leaves;
    var q := ShowHeld(p, Some(id));
    ShowHeldLeaves(p, Some(id));
    LeavesFit(p, q);
    var size := BlockSize(block) + UserSize(user);
    StoredFits(q, id, user, block, size);
    var r := SetDetail(q.(users := q.users[id := user]), id, Blocks([block], size)).0;
    var item := TextItem(q, id, UserMessage(segments), Shown(user, block).0);
    ThenPut(r, r.(held := None), item);
    LeavesFit(r, Upsert(r.(held := None), item));
    SameLeaves(r, r.(held := None));
    LeavesFit(r, r.(held := None));
    SameLeaves(r, r.(held := Some(item)));
    LeavesFit(r, r.(held := Some(item)));
  }

  lemma ForgetLeaves(p: Projection, id: string)
    ensures Leaves(p, p.(users := p.users - {id}))
  {
    hide HeadHolds;
    var q := p.(users := p.users - {id});
    forall other | Fit(p, other) ensures Fit(q, other) {
      if other == id { NoneHolds(q, id); }
    }
  }

  lemma ExtendMediaLeaves(p: Projection, id: string, parts: seq<MediaPart>, offset: nat)
    ensures ExtendMedia(p, id, parts, offset).0.users == p.users && ExtendMedia(p, id, parts, offset).0.details == p.details
  {
    hide DataSize, HoldAll, NewSegments, MediaOf;
  }

  lemma AppendFits(p: Projection, role: Role, id: string, text: string, segments: seq<Segment>, parts: seq<MediaPart>)
    requires UsersFit(p) && !Misfits(p, role, id, text)
    ensures UsersFit(AppendTo(p, role, id, text, segments, parts))
  {
    hide UsersFit, Leaves, KnownText, Extend, PutUserMessage, ExtendMedia, PutTextBlock, UserOf, IsBeside, CanShow, ExtendText;
    match KnownText(p, id)
    case None =>
    case Some(known) =>
      match role
      case User =>
        var limit := p.retention.itemDetail;
        KnownHolds(p, id, known);
        ExtendBeside(UserOf(p, id), known, text, limit);
        ForgetLeaves(p, id);
        LeavesFit(p, p.(users := p.users - {id}));
        var (user, block) := Extend(UserOf(p, id), known, text, limit);
        PutUserFits(p.(users := p.users - {id}), id, user, block, segments);
      case Agent =>
        var (q, media) := ExtendMedia(p, id, parts, PlaceAfter(known, text));
        ExtendMediaLeaves(p, id, parts, PlaceAfter(known, text));
        ThenPutChunk(p, q, id, AgentMessage(media), known, text, NO_LIMIT);
        LeavesFit(p, PutTextBlock(q, id, AgentMessage(media), ExtendText(known, text, NO_LIMIT)));
      case Thought =>
        ThenPutChunk(p, p, id, Reasoning, known, text, p.retention.itemDetail);
        LeavesFit(p, PutTextBlock(p, id, Reasoning, ExtendText(known, text, p.retention.itemDetail)));
  }

  lemma KnownHolds(p: Projection, id: string, known: DetailBlock)
    requires UsersFit(p) && KnownText(p, id) == Some(known)
    ensures IsBeside(UserOf(p, id), known)
  {
    hide HeadHolds;
    assert Fit(p, id);
    if UserOf(p, id).None? { NoneBeside(known); }
  }

  lemma NoneBeside(block: DetailBlock)
    ensures IsBeside(None, block)
  {
  }

  /** An agent's chunk leaves the head of an excerpt, also of a user message's. */
  lemma ChunkLeaves(p: Projection, id: string, known: DetailBlock, text: string, limit: nat, size: nat)
    requires KnownText(p, id) == Some(known)
    ensures Leaves(p, SetDetail(p, id, Blocks([ExtendText(known, text, limit)], size)).0)
  {
    hide IsCharBoundary, TailStart, Bytes;
    var q := SetDetail(p, id, Blocks([ExtendText(known, text, limit)], size)).0;
    forall other | Fit(p, other) ensures Fit(q, other) {
      if other != id { assert SameDetail(p, q, other) && UserOf(q, other) == UserOf(p, other); }
    }
  }

  lemma ThenPutChunk(p: Projection, q: Projection, id: string, kind: ItemKind, known: DetailBlock, text: string, limit: nat)
    requires q.users == p.users && q.details == p.details && KnownText(p, id) == Some(known)
    ensures Leaves(p, PutTextBlock(q, id, kind, ExtendText(known, text, limit)))
  {
    hide Leaves, SetDetail, TextItem, Upsert, BlockSize, ExtendText;
    var block := ExtendText(known, text, limit);
    var r := SetDetail(q, id, Blocks([block], BlockSize(block))).0;
    SameLeaves(p, q);
    assert KnownText(q, id) == KnownText(p, id);
    ChunkLeaves(q, id, known, text, limit, BlockSize(block));
    LeavesThen(p, q, r);
    UpsertLeaves(r, TextItem(q, id, kind, block));
    LeavesThen(p, r, Upsert(r, TextItem(q, id, kind, block)));
  }

  lemma BeginFits(p: Projection, turnId: string, text: string, segments: seq<Segment>)
    requires UsersFit(p) && !TurnActive(p)
    ensures UsersFit(BeginTurn(p, turnId, text, segments))
  {
    hide UsersFit, Leaves, PutUserMessage, Extend, StatusOf, IsBeside, CanShow;
    var q := SetTurn(p.(open := None), Some(turnId), InTurn, None);
    var limit := p.retention.itemDetail;
    SameLeaves(p, q);
    LeavesFit(p, q);
    NoneBeside(TextBlock(""));
    ExtendBeside(None, TextBlock(""), text, limit);
    PutUserFits(q, "user:" + turnId, Extend(None, TextBlock(""), text, limit).0, Extend(None, TextBlock(""), text, limit).1, segments);
  }

  // ----- Every action

  /** What else an action stores a detail for is no user message. */
  predicate StoresApart(p: Projection, action: Action) {
    match action
    case Tool(update) => update.blocks.Some? ==> update.id !in p.users
    case Finish(turnId, _, error) => error.Some? ==> LocalId(p, turnId, "error") !in p.users
    case ModeIs(_, _) => LocalId(p, "session", "mode") !in p.users
    case ConfigIs(_) => LocalId(p, "session", "config") !in p.users
    case _ => true
  }

  lemma ResolveLeaves(p: Projection, id: string, state: InteractionState, answer: Option<Answer>)
    ensures Leaves(p, ResolvePending(p, id, state, answer))
    ensures ResolvePending(p, id, state, answer).nextLocal == p.nextLocal
  {
    hide Leaves, Upsert, InteractionRecord, StatusOf;
    SameLeaves(p, p);
    if p.snapshot.pending.Some? && p.snapshot.pending.value.id == id {
      var pending := p.snapshot.pending.value.(state := state);
      var q := Emit(p, PendingChange(pending));
      var record := InteractionRecord(p, pending, state, answer);
      ThenPut(p, q, record);
      ThenSame(p, Upsert(q, record), RefreshStatus(Upsert(q, record)));
      UpsertParts(q, record);
    }
  }

  lemma CloseLeaves(p: Projection, state: InteractionState)
    ensures Leaves(p, ClosePending(p, state)) && ClosePending(p, state).nextLocal == p.nextLocal
  {
    hide Leaves, ResolvePending;
    SameLeaves(p, p);
    match p.snapshot.pending
    case Some(pending) => ResolveLeaves(p, pending.id, state, None);
    case None =>
  }

  lemma ErrorLeaves(p: Projection, turnId: string, error: Option<string>)
    requires error.Some? ==> LocalId(p, turnId, "error") !in p.users
    ensures Leaves(p, PutError(p, turnId, error))
  {
    hide Leaves, PutTextBlock, ExcerptOf, Decimal;
    SameLeaves(p, p);
    match error
    case Some(message) =>
      var (q, id) := NextLocalId(p, turnId, "error");
      ThenPutText(p, q, id, ErrorItem, ExcerptOf(message, q.retention.itemDetail));
    case None =>
  }

  lemma FinishLeaves(p: Projection, turnId: string, reason: StopReason, error: Option<string>)
    requires error.Some? ==> LocalId(p, turnId, "error") !in p.users
    ensures Leaves(p, FinishTurn(p, turnId, reason, error))
  {
    hide Leaves, ClosePending, PutError, Upsert, OutcomeItem, StatusOf, Decimal, IsCurrent;
    SameLeaves(p, p);
    if IsCurrent(p, turnId) {
      var q := ClosePending(p, PendingOutcome(reason));
      CloseLeaves(p, PendingOutcome(reason));
      ThenSame(p, q, q.(open := None));
      FewerKeys(p, q);
      var r := PutError(q.(open := None), turnId, error);
      ErrorLeaves(q.(open := None), turnId, error);
      LeavesThen(p, q.(open := None), r);
      UpsertLeaves(r, OutcomeItem(turnId, reason));
      LeavesThen(p, r, Upsert(r, OutcomeItem(turnId, reason)));
      ThenSame(p, Upsert(r, OutcomeItem(turnId, reason)), FinishTurn(p, turnId, reason, error));
    }
  }

  lemma FewerKeys(p: Projection, q: Projection)
    requires Leaves(p, q)
    ensures q.users.Keys <= p.users.Keys
  {
    hide Fit;
  }

  lemma InterruptLeaves(p: Projection)
    ensures Leaves(p, InterruptTurn(p))
  {
    hide Leaves, FinishTurn, ClosePending, CurrentTurn;
    match CurrentTurn(p)
    case Some(turnId) => FinishLeaves(p, turnId, TurnInterrupted, None);
    case None => CloseLeaves(p, Expired);
  }

  lemma ToolLeaves(p: Projection, update: ToolUpdate)
    requires update.blocks.Some? ==> update.id !in p.users
    ensures Leaves(p, UpsertTool(p, update))
  {
    hide Leaves, ToolItem, BoundedBlocks, Upsert, SetDetail, DataSize, HoldAll;
    var q := ToolMedia(p.(open := None), update);
    var item := ToolItem(p, update);
    SameLeaves(p, q);
    match update.blocks
    case Some(blocks) =>
      var r := StoreDetail(q, update.id, blocks);
      StoreLeaves(q, update.id, blocks);
      LeavesThen(p, q, r);
      UpsertLeaves(r, item);
      LeavesThen(p, r, Upsert(r, item));
    case None =>
      UpsertLeaves(q, item);
      LeavesThen(p, q, Upsert(q, item));
  }

  lemma StoreLeaves(p: Projection, id: string, blocks: seq<DetailBlock>)
    requires id !in p.users
    ensures Leaves(p, StoreDetail(p, id, blocks))
  {
    hide Leaves, SetDetail, BoundedBlocks;
    var bounded := match BoundedBlocks(blocks, p.retention.itemDetail)
                   case Kept(kept, size) => Blocks(kept, size)
                   case TooLarge => TooLargeDetail;
    SetDetailLeaves(p, id, bounded);
  }

  lemma SettingItemLeaves(p: Projection, settings: seq<Setting>, scope: string, kind: ItemKind, text: string)
    requires LocalId(p, "session", scope) !in p.users
    ensures Leaves(p, PutSettingItem(p, settings, scope, kind, text))
  {
    hide Leaves, PutTextBlock, ExcerptOf, Decimal;
    var (q, id) := NextLocalId(SetSettings(p, settings), "session", scope);
    ThenPutText(p, q, id, kind, ExcerptOf(text, q.retention.itemDetail));
  }

  lemma ReleaseItemLeaves(p: Projection, id: string, textHeld: bool)
    ensures Leaves(p, ReleaseItem(p, id, textHeld).0)
  {
    hide HeadHolds, DetailSize, DataSize, ReleasedAll;
    var q := ReleaseItem(p, id, textHeld).0;
    forall other | Fit(p, other) ensures Fit(q, other) {
      if other == id && !textHeld && id in p.details && DetailSize(p.details[id]) > 0 {
        assert q.details[id] == ReleasedDetail;
      } else {
        assert UserOf(q, other) == UserOf(p, other);
      }
    }
  }

  lemma {:induction false} ReleaseLeaves(p: Projection, candidates: seq<(string, bool)>, need: nat, freed: nat)
    ensures Leaves(p, ReleaseEach(p, candidates, need, freed).0)
    decreases |candidates|
  {
    hide Leaves, ReleaseItem;
    SameLeaves(p, p);
    if candidates != [] && freed < need {
      var (q, more) := ReleaseItem(p, candidates[0].0, candidates[0].1);
      ReleaseItemLeaves(p, candidates[0].0, candidates[0].1);
      ReleaseLeaves(q, candidates[1..], need, freed + more);
      LeavesThen(p, q, ReleaseEach(q, candidates[1..], need, freed + more).0);
    }
  }

  lemma SetterLeaves(p: Projection, action: Action)
    requires IsSetter(action) && !Panics(p, action)
    ensures Leaves(p, Step(p, action))
  {
    hide *;
    var change := SetterEmits(p, action);
    EmitSame(p, change);
    SameLeaves(p, p);
    SameLeaves(p, Emit(p, change));
  }

  lemma EmitSame(p: Projection, change: Change)
    ensures Emit(p, change).users == p.users && Emit(p, change).details == p.details
  {
  }

  /** All but what puts a user message. */
  lemma OthersLeave(p: Projection, action: Action)
    requires StoresApart(p, action) && !action.Begin? && !action.Message? && !Panics(p, action)
    ensures Leaves(p, Step(p, action))
  {
    hide Leaves, FinishTurn, InterruptTurn, ResolvePending, ShowHeld, UpsertTool, Upsert, PutSettingItem, ReleaseEach;
    hide Candidates, StatusOf, CurrentTurn, Decimal;
    match action
    case Cancel => SameLeaves(p, CancellingTurn(p));
    case Finish(turnId, reason, error) => FinishLeaves(p, turnId, reason, error);
    case Interrupt => InterruptLeaves(p);
    case Pend(pending) => SameLeaves(p, SetPending(p, pending));
    case Resolve(id, state, answer) => ResolveLeaves(p, id, state, answer);
    case CompleteReplay =>
      ShowHeldLeaves(p, None);
      ThenSame(p, ShowHeld(p, None), EndReplay(p));
    case Tool(update) => ToolLeaves(p, update);
    case NewPlan(entries) =>
      var turn := CurrentTurn(p);
      ThenPut(p, p.(open := None), ActivityItem("plan:" + turn.UnwrapOr("session"), turn, Plan(entries), None, "", false));
    case ModeIs(settings, mode) => SettingItemLeaves(p, settings, "mode", ModeChange, mode);
    case ConfigIs(settings) => SettingItemLeaves(p, settings, "config", ConfigChange, "");
    case Other(what) =>
      var (q, id) := NextLocalId(p, "session", "generic");
      ThenPut(p, q, ActivityItem(id, CurrentTurn(p), Generic(what), None, "", false));
    case Release(need) => ReleaseLeaves(p, Candidates(p.snapshot.items, CurrentTurn(p)), need, 0);
    case Look(_) => SameLeaves(p, p);
    case _ => SetterLeaves(p, action);
  }

  /** An action that stores no tool, error or setting detail under a user
      message's id does not panic where the user texts fit, and leaves them so. */
  lemma StepFits(p: Projection, action: Action)
    requires UsersFit(p) && StoresApart(p, action)
    ensures !Panics(p, action) && UsersFit(Step(p, action))
  {
    hide UsersFit, Leaves, Slices, LookSlices, BeginTurn, Addressed, Misfits, AppendTo, Decimal;
    PanicsExactly(p, action);
    if action.Look? { NoSlice(p, action.id, ""); }
    match action
    case Begin(turnId, text, segments) => if !TurnActive(p) { BeginFits(p, turnId, text, segments); }
    case Message(role, messageId, text, segments, parts) =>
      var (q, id) := Addressed(p, role, messageId);
      NoSlice(p, Addressed(p, User, messageId).1, text);
      AddressedKnows(p, role, messageId);
      SameLeaves(p, q);
      LeavesFit(p, q);
      AppendFits(q, role, id, text, segments, parts);
    case _ =>
      OthersLeave(p, action);
      LeavesFit(p, Step(p, action));
  }

  lemma NoSlice(p: Projection, id: string, text: string)
    requires UsersFit(p)
    ensures !Slices(p, id, text) && !LookSlices(p, id)
  {
    hide Fit, Slices, LookSlices;
    assert Fit(p, id);
    FittingNeverSlices(p, id, text);
    FittingNeverHides(p, id);
  }

  ghost predicate AllStoreApart(p: Projection, actions: seq<Action>) {
    actions == [] || (AllStoreApart(p, actions[..|actions| - 1]) &&
      match Run(p, actions[..|actions| - 1])
      case Some(q) => StoresApart(q, actions[|actions| - 1])
      case None => true)
  }

  /** Over any run in which details of tools, errors and settings keep off the
      ids of user messages, the code never panics: no chunk of any role, and no
      lookup. */
  lemma {:induction false} RunNeverPanics(connection: Connection, history: HistoryState, replay: bool, writer: WriterState,
                                          retention: Retention, actions: seq<Action>)
    requires AllStoreApart(NewProjection(connection, history, replay, writer, retention), actions)
    ensures var p := Run(NewProjection(connection, history, replay, writer, retention), actions);
            p.Some? && UsersFit(p.value)
  {
    hide UsersFit, Step, StoresApart, Panics;
    var p := NewProjection(connection, history, replay, writer, retention);
    if actions == [] {
      NewFits(connection, history, replay, writer, retention);
    } else {
      RunNeverPanics(connection, history, replay, writer, retention, actions[..|actions| - 1]);
      StepFits(Run(p, actions[..|actions| - 1]).value, actions[|actions| - 1]);
    }
  }

  lemma NewFits(connection: Connection, history: HistoryState, replay: bool, writer: WriterState, retention: Retention)
    ensures UsersFit(NewProjection(connection, history, replay, writer, retention))
  {
  }

  // ----- A run to it

  const STARTS: string := " <!"
  const GOES_ON: string := "-- svode-owner:a:b -->"
  const ACCENTS: string := "\U{00e9}\U{00e9}"

  lemma StartsLive()
    ensures LiveStart(STARTS) == Some(1) && STARTS[1..] == "<!"
    ensures HasRead(Read(UNREAD, "<!"), "<!")
  {
    hide Read, IsAlive, Bytes, HasRead, MatchIndices, CutMarker, STARTS, OWNER_MARKER;
    StartsText();
    FreshScanReads("<!");
    OneCutMarker(STARTS, |OWNER_MARKER| - 1);
    NoMatches(STARTS);
    assert IsPlace(STARTS, 1);
    StartIsLive();
    assert [1][1..] == [];
    assert Places(STARTS, [1]) == [1];
    assert MatchIndices(STARTS, OWNER_MARKER) + [1] == [1];
    assert BlockStarts(STARTS, true) == Places(STARTS, [1]);
  }

  lemma StartsText()
    ensures |STARTS| == 3 && STARTS[0] == ' ' && STARTS[1..] == "<!" == OWNER_MARKER[..2] && |OWNER_MARKER| == 17
  {
  }

  lemma StartIsLive()
    ensures IsAlive(Read(UNREAD, "<!"))
  {
    AsciiBytes(OWNER_MARKER);
    AsciiBytes("<!");
    assert "<!" == OWNER_MARKER[..2];
    assert UNREAD.markers + "<!" == "<!";
    assert RoutineMarker("<!", OWNER_MARKER, IsOwner).Unfinished?;
  }

  lemma {:induction false} OneCutMarker(text: string, length: nat)
    requires |text| == 3 && text[0] == ' ' && text[1..] == OWNER_MARKER[..2] && 2 <= length < |OWNER_MARKER|
    ensures CutMarker(text, length) == Some(1)
    decreases length
  {
    hide OWNER_MARKER;
    OwnerTag();
    if length > 2 {
      OneCutMarker(text, length - 1);
    } else {
      assert text[|text| - 2..] == text[1..];
    }
  }

  lemma CompletesBlock()
    ensures ScanEnd(Read(Read(UNREAD, "<!"), GOES_ON)) == Some(Whole)
  {
    hide Read, HasRead, BlockEnd, IsAlive, ScanEnd, LiveStart, OWNER_MARKER, MARKER_END, GOES_ON;
    StartsLive();
    ReadKeeps(Read(UNREAD, "<!"), "<!", GOES_ON);
    ScanIsExact(Read(Read(UNREAD, "<!"), GOES_ON), "<!" + GOES_ON);
    BlockLiveness.SmallBlock();
    BlockIs();
  }

  lemma BlockIs()
    ensures "<!" + GOES_ON == OWNER_MARKER + ("a:b" + MARKER_END + "")
  {
  }

  /** The head of one byte. */
  lemma StartsExtended()
    ensures var (user, block) := Extend(None, TextBlock(""), STARTS, 2);
            && user == Some(BlockStart(InHead(1), Read(UNREAD, "<!"))) && block.Excerpt?
            && CanShow(user, block)
  {
    hide Read, LiveStart, CanShow, HeadEnd, TailStart, STARTS, Bytes, NewestBudget, HeadHolds;
    StartsLive();
    StartsHead();
    assert "" + STARTS == STARTS;
    TextHolds(None, TextBlock(""));
    ExtendHolds(None, TextBlock(""), STARTS, 2);
  }

  lemma StartsHead()
    ensures Bytes(STARTS) == 3 && HeadEnd(STARTS, 2) == 1 && Bytes(STARTS[..1]) == 1
  {
    hide FloorChars;
    AsciiBytes(STARTS);
    AsciiBytes(STARTS[..1]);
    AsciiBytes(STARTS[..2]);
    FloorIsUnique(STARTS, 1, 1);
  }

  lemma OneText(text: string)
    ensures var blocks := [TextBlock(text)];
            TotalSize(blocks) == Bytes(text) && Terminals(blocks) == [] && Texts(blocks) == [text]
  {
    hide Bytes;
    var blocks := [TextBlock(text)];
    assert blocks[..|blocks| - 1] == [];
    assert TotalSize([]) == 0 && Terminals([]) == [] && Texts([]) == [];
  }

  lemma AccentsBounded()
    ensures var bounded := BoundedBlocks([TextBlock(ACCENTS)], 2);
            bounded.Kept? && |bounded.blocks| == 1 && bounded.blocks[0].Excerpt? && bounded.blocks[0].head == ""
  {
    hide TailStart, FloorChars;
    assert ACCENTS[..1] == [ACCENTS[0]] && ACCENTS[..0] == "" && ACCENTS[..2] == ACCENTS;
    assert Bytes("") == 0;
    assert [ACCENTS[0]][..0] == "";
    assert Bytes(ACCENTS[..1]) == 2 && Bytes(ACCENTS) == 4;
    FloorIsUnique(ACCENTS, 1, 0);
    OneText(ACCENTS);
    assert JoinLines([ACCENTS]) == ACCENTS;
  }

  /** A live session of at most `n` small items, outside any turn. */
  ghost predicate Small(p: Projection, n: nat) {
    && p.held.None? && p.replay.None? && !TurnActive(p) && p.retention.itemDetail == 2
    && |p.snapshot.items| <= n && p.compactBytes <= n * SMALL_ITEM
    && forall i :: 0 <= i < |p.snapshot.items| ==> IsSmall(p.snapshot.items[i])
  }

  predicate IsSmall(item: ActivityItem) {
    item.turnId.None? && Bytes(item.summary) <= SUMMARY_LIMIT
  }

  lemma PutSmall(p: Projection, item: ActivityItem, n: nat)
    requires Small(p, n) && IsSmall(item) && item.id == "m" && KindSize(item.kind) == 0
    requires n < p.retention.sessionItems && (n + 1) * SMALL_ITEM <= p.retention.sessionBytes
    ensures var q := Upsert(p, item);
            Small(q, n + 1) && q.users == p.users && q.details == p.details && q.retention == p.retention
  {
    hide *;
    PutsSmall(p, item, n);
    SmallHoldsNone(p, n);
    NothingHeld(p, Some(item.id));
    UpsertIs(p, item);
    NotOverStays(PutItem(p, item));
  }

  lemma SmallHoldsNone(p: Projection, n: nat)
    requires Small(p, n)
    ensures p.held.None?
  {
  }

  lemma PutsSmall(p: Projection, item: ActivityItem, n: nat)
    requires Small(p, n) && IsSmall(item) && item.id == "m" && KindSize(item.kind) == 0
    requires n < p.retention.sessionItems && (n + 1) * SMALL_ITEM <= p.retention.sessionBytes
    ensures var q := PutItem(p, item);
            Small(q, n + 1) && !OverBounds(q) && q.users == p.users && q.details == p.details && q.retention == p.retention
  {
    hide KindSize;
    AsciiBytes("m");
    assert CompactSize(item) <= SMALL_ITEM;
  }

  /** The block of message `m` starts at byte 1 of the head. */
  function BlockAt(scan: Scan): Option<BlockStart> {
    Some(BlockStart(InHead(1), scan))
  }

  /** One excerpt is held of message `m`. */
  predicate HoldsExcerpt(p: Projection) {
    "m" in p.details && p.details["m"].Blocks? && |p.details["m"].blocks| == 1 && p.details["m"].blocks[0].Excerpt?
  }

  lemma FirstChunk(p: Projection)
    requires Small(p, 0) && p.details == map[] && p.users == map[]
    requires 1 <= p.retention.sessionItems && SMALL_ITEM <= p.retention.sessionBytes
    ensures var action := Message(User, Some("m"), STARTS, [], []);
            && !Panics(p, action)
            && var q := Step(p, action);
               && Small(q, 1) && q.users == map["m" := BlockAt(Read(UNREAD, "<!"))] && HoldsExcerpt(q)
               && q.retention == p.retention
  {
    hide Read, CanShow, Extend, PutUserMessage;
    StartsExtended();
    var (user, block) := Extend(None, TextBlock(""), STARTS, 2);
    var q := p.(open := Some((User, "m")));
    assert Addressed(p, User, Some("m")) == (q, "m");
    assert q.(users := q.users - {"m"}) == q;
    PutsMessage(q, user, block, 0);
  }

  lemma PutsMessage(p: Projection, user: Option<BlockStart>, block: DetailBlock, n: nat)
    requires Small(p, n) && CanShow(user, block) && block.Excerpt?
    requires n < p.retention.sessionItems && (n + 1) * SMALL_ITEM <= p.retention.sessionBytes
    ensures var q := PutUserMessage(p, "m", user, block, []);
            Small(q, n + 1) && q.users == p.users["m" := user] && HoldsExcerpt(q) && q.retention == p.retention
  {
    hide Read, Shown, CanShow, BlockSize, UserSize, Upsert, Enforce, IsSmall, KindSize;
    var detail := Blocks([block], BlockSize(block) + UserSize(user));
    var r := SetDetail(p.(users := p.users["m" := user]), "m", detail).0;
    var item := TextItem(p, "m", UserMessage([]), Shown(user, block).0);
    SmallText(p, Shown(user, block).0, n);
    PutSmall(r, item, n);
  }

  lemma SmallText(p: Projection, block: DetailBlock, n: nat)
    requires Small(p, n)
    ensures var item := TextItem(p, "m", UserMessage([]), block);
            IsSmall(item) && item.id == "m" && KindSize(item.kind) == 0
  {
    hide Bytes;
  }

  /** The chunk that completes the block, while the head is still the one it
      started in. */
  lemma SecondChunk(p: Projection)
    requires Small(p, 1) && UsersFit(p) && HoldsExcerpt(p) && p.users == map["m" := BlockAt(Read(UNREAD, "<!"))]
    requires 2 <= p.retention.sessionItems && 2 * SMALL_ITEM <= p.retention.sessionBytes
    ensures var action := Message(User, Some("m"), GOES_ON, [], []);
            && !Panics(p, action)
            && var q := Step(p, action);
               && Small(q, 2) && q.users == map["m" := BlockAt(Read(Read(UNREAD, "<!"), GOES_ON))]
               && q.retention == p.retention
  {
    hide Read, CanShow, Extend, PutUserMessage, UsersFit, Misfits, IsSmall, GOES_ON;
    CompletesBlock();
    StepFits(p, Message(User, Some("m"), GOES_ON, [], []));
    var q := p.(open := Some((User, "m")));
    assert Addressed(p, User, Some("m")) == (q, "m");
    ExtendedOn(q);
    var (user, block) := Extend(UserOf(q, "m"), q.details["m"].blocks[0], GOES_ON, 2);
    MisfitsNot(q, user, block);
    PutsMessage(q.(users := q.users - {"m"}), user, block, 1);
    assert (q.users - {"m"})["m" := user] == map["m" := user];
  }

  lemma ExtendedOn(p: Projection)
    requires HoldsExcerpt(p) && p.users == map["m" := BlockAt(Read(UNREAD, "<!"))]
    requires ScanEnd(Read(Read(UNREAD, "<!"), GOES_ON)) == Some(Whole)
    ensures KnownText(p, "m") == Some(p.details["m"].blocks[0])
    ensures var (user, block) := Extend(UserOf(p, "m"), p.details["m"].blocks[0], GOES_ON, 2);
            user == BlockAt(Read(Read(UNREAD, "<!"), GOES_ON)) && block.Excerpt?
  {
    hide Read, NextBlockStart, ScanEnd, IsAlive, TailStart, NewestBudget, GOES_ON;
    var known := p.details["m"].blocks[0];
    WholeIsAlive(Read(Read(UNREAD, "<!"), GOES_ON));
    FreshStartsAfter(UserOf(p, "m"), known.omitted, known.tail + GOES_ON, GOES_ON, 2);
  }

  lemma MisfitsNot(p: Projection, user: Option<BlockStart>, block: DetailBlock)
    requires !Misfits(p, User, "m", GOES_ON) && HoldsExcerpt(p) && p.retention.itemDetail == 2
    requires KnownText(p, "m") == Some(p.details["m"].blocks[0])
    requires Extend(UserOf(p, "m"), p.details["m"].blocks[0], GOES_ON, 2) == (user, block)
    ensures CanShow(user, block)
    ensures AppendTo(p, User, "m", GOES_ON, [], []) == PutUserMessage(p.(users := p.users - {"m"}), "m", user, block, [])
  {
    hide Extend, CanShow, KnownText, PutUserMessage;
  }

  const CLASHING := ToolUpdate("m", ToolCall([], [], []), None, None, Some([TextBlock(ACCENTS)]), None)

  lemma SmallTool(p: Projection, n: nat)
    requires Small(p, n)
    ensures var item := ToolItem(p, CLASHING);
            IsSmall(item) && item.id == "m" && KindSize(item.kind) == 0
  {
    assert Bytes("") == 0;
  }

  lemma ToolClashes(p: Projection, n: nat)
    requires Small(p, n) && n < p.retention.sessionItems && (n + 1) * SMALL_ITEM <= p.retention.sessionBytes
    ensures var q := UpsertTool(p, CLASHING);
            q.users == p.users && HoldsExcerpt(q) && q.details["m"].blocks[0].head == ""
  {
    hide BoundedBlocks, Upsert, ToolItem, IsSmall, KindSize;
    AccentsBounded();
    SmallTool(p, n);
    var item := ToolItem(p, CLASHING);
    var r := StoreDetail(p.(open := None), "m", [TextBlock(ACCENTS)]);
    PutSmall(r, item, n);
  }

  lemma NewIsSmall(connection: Connection, history: HistoryState, writer: WriterState, retention: Retention)
    requires retention.itemDetail == 2
    ensures var p := NewProjection(connection, history, false, writer, retention);
            Small(p, 0) && p.details == map[] && p.users == map[] && p.retention == retention
  {
  }

  lemma ChunkSlices(p: Projection)
    requires p.users == map["m" := BlockAt(Read(UNREAD, "<!"))] && HoldsExcerpt(p) && p.details["m"].blocks[0].head == ""
    ensures Panics(p, Message(User, Some("m"), GOES_ON, [], []))
  {
    hide Panics, Read, ScanEnd;
    CompletesBlock();
    PanicsExactly(p, Message(User, Some("m"), GOES_ON, [], []));
    assert !IsCharBoundary("", 1);
    NamedIs(p, "m");
  }

  lemma LookSlicesNow(p: Projection)
    requires p.users == map["m" := BlockAt(Read(Read(UNREAD, "<!"), GOES_ON))]
    requires HoldsExcerpt(p) && p.details["m"].blocks[0].head == ""
    ensures Panics(p, Look("m"))
  {
    hide Panics, Read, ScanEnd, GOES_ON;
    CompletesBlock();
    PanicsExactly(p, Look("m"));
    assert !IsCharBoundary("", 1);
    assert p.details["m"].blocks[0] in p.details["m"].blocks;
  }

  lemma NamedIs(p: Projection, id: string)
    ensures Addressed(p, User, Some(id)).1 == id
  {
    hide ReplayName, Continues;
  }

  /** A tool call under a message's id replaces the text held of the message:
      when the block the message started is completed, the code panics. */
  lemma ClashPanics(connection: Connection, history: HistoryState, writer: WriterState, retention: Retention)
    requires retention.itemDetail == 2 && 2 <= retention.sessionItems && 2 * SMALL_ITEM <= retention.sessionBytes
    ensures var p := NewProjection(connection, history, false, writer, retention);
            var before := [Message(User, Some("m"), STARTS, [], []), Tool(CLASHING)];
            && Run(p, before).Some?
            && Run(p, before + [Message(User, Some("m"), GOES_ON, [], [])]) == None
  {
    hide *;
    var p := NewProjection(connection, history, false, writer, retention);
    var first, last := Message(User, Some("m"), STARTS, [], []), Message(User, Some("m"), GOES_ON, [], []);
    NewIsSmall(connection, history, writer, retention);
    FirstChunk(p);
    var q := Step(p, first);
    ToolClashes(q, 1);
    ToolSteps(q, CLASHING);
    ChunkSlices(Step(q, Tool(CLASHING)));
    RunOnce(p, first);
    RunOnceMore(p, [first], Tool(CLASHING));
    assert [first] + [Tool(CLASHING)] == [first, Tool(CLASHING)];
    RunOnceMore(p, [first, Tool(CLASHING)], last);
  }

  /** When it replaces the text of a message whose block is complete, a lookup
      of the message panics. */
  lemma LookupPanics(connection: Connection, history: HistoryState, writer: WriterState, retention: Retention)
    requires retention.itemDetail == 2 && 3 <= retention.sessionItems && 3 * SMALL_ITEM <= retention.sessionBytes
    ensures var p := NewProjection(connection, history, false, writer, retention);
            var said := [Message(User, Some("m"), STARTS, [], []), Message(User, Some("m"), GOES_ON, [], [])];
            && Run(p, said + [Tool(CLASHING)]).Some?
            && Run(p, said + [Tool(CLASHING)] + [Look("m")]) == None
  {
    hide *;
    var p := NewProjection(connection, history, false, writer, retention);
    var first, second := Message(User, Some("m"), STARTS, [], []), Message(User, Some("m"), GOES_ON, [], []);
    NewIsSmall(connection, history, writer, retention);
    NewFits(connection, history, false, writer, retention);
    FirstChunk(p);
    StoresNothing(p, first);
    StepFits(p, first);
    var q := Step(p, first);
    SecondChunk(q);
    var r := Step(q, second);
    ToolClashes(r, 2);
    ToolSteps(r, CLASHING);
    LookSlicesNow(Step(r, Tool(CLASHING)));
    RunOnce(p, first);
    RunOnceMore(p, [first], second);
    assert [first] + [second] == [first, second];
    RunOnceMore(p, [first, second], Tool(CLASHING));
    RunOnceMore(p, [first, second] + [Tool(CLASHING)], Look("m"));
  }

  lemma StoresNothing(p: Projection, action: Action)
    requires action.Message?
    ensures StoresApart(p, action)
  {
  }
}
