/** The size recorded with the detail of an item is that of what is held for it,
    in every state of a run in which other details keep off user messages that
    hold the start of a block; so the detail count is the bytes held. */
module HeldSizes {
  import opened Text
  import opened RoutineBlock
  import opened ContextScan
  import opened BlockScan
  import opened RoutinePrompt
  import opened DetailText
  import opened UserTexts
  import opened Activity
  import opened Projection
  import opened Accounting
  import opened TurnRetention
  import opened ProjectionRuns
  import opened SessionRuns

  // ----- What is held

  ghost function BlockText(block: DetailBlock): string {
    match block
    case TextBlock(text) => text
    case Excerpt(head, _, tail) => head + tail
    case Diff(path, oldText, newText) => path + oldText.UnwrapOr("") + newText
    case Terminal(id) => id
  }

  /** What is held to tell whether a message ends in a block. */
  ghost function StartText(user: Option<BlockStart>): string {
    match user
    case Some(b) =>
      (match b.before case After(_, tail) => tail case InHead(_) => "")
      + b.scan.markers + (match b.scan.context case Some(context) => context.carry case None => "")
    case None => ""
  }

  function BlocksOf(p: Projection, id: string): seq<DetailBlock> {
    if id in p.details && p.details[id].Blocks? then p.details[id].blocks else []
  }

  /** The size recorded for the detail of item `id`. */
  function RecordedSize(p: Projection, id: string): nat {
    if id in p.details then DetailSize(p.details[id]) else 0
  }

  /** All the text held for item `id`, apart from media. */
  ghost function HeldText(p: Projection, id: string): string {
    JoinedOf(BlocksOf(p, id), BlockText) + StartText(UserOf(p, id))
  }

  /** The size recorded for item `id` is that of what is held for it. */
  predicate SizedAt(p: Projection, id: string) {
    RecordedSize(p, id) == TotalSize(BlocksOf(p, id)) + UserSize(UserOf(p, id))
  }

  ghost predicate Sized(p: Projection) {
    forall id :: SizedAt(p, id)
  }

  lemma BlockIsText(block: DetailBlock)
    ensures BlockSize(block) == Bytes(BlockText(block))
  {
    hide Bytes;
    NoBytes();
    match block
    case Excerpt(head, _, tail) => BytesConcat(head, tail);
    case Diff(path, oldText, newText) =>
      BytesConcat(path, oldText.UnwrapOr(""));
      BytesConcat(path + oldText.UnwrapOr(""), newText);
    case _ =>
  }

  lemma {:induction false} BlocksAreText(blocks: seq<DetailBlock>)
    ensures TotalSize(blocks) == Bytes(JoinedOf(blocks, BlockText))
  {
    hide Bytes, BlockSize, BlockText;
    if blocks == [] {
      NoBytes();
    } else {
      assert blocks == [blocks[0]] + blocks[1..];
      TotalSizeJoins([blocks[0]], blocks[1..]);
      OneBlock(blocks[0]);
      BlockIsText(blocks[0]);
      BlocksAreText(blocks[1..]);
      BytesConcat(BlockText(blocks[0]), JoinedOf(blocks[1..], BlockText));
    }
  }

  lemma StartIsText(user: Option<BlockStart>)
    ensures UserSize(user) == Bytes(StartText(user))
  {
    hide Bytes;
    NoBytes();
    match user
    case None =>
    case Some(b) =>
      var tail := match b.before case After(_, tail) => tail case InHead(_) => "";
      var carry := match b.scan.context case Some(context) => context.carry case None => "";
      BytesConcat(tail, b.scan.markers);
      BytesConcat(tail + b.scan.markers, carry);
  }

  lemma NoSize()
    ensures TotalSize([]) == 0 && UserSize(None) == 0
  {
  }

  lemma SizeIsHeld(p: Projection, id: string)
    requires SizedAt(p, id)
    ensures RecordedSize(p, id) == Bytes(HeldText(p, id))
  {
    hide Bytes, TotalSize, UserSize, StartText, UserOf, BlocksOf, RecordedSize;
    BlocksAreText(BlocksOf(p, id));
    StartIsText(UserOf(p, id));
    BytesConcat(JoinedOf(BlocksOf(p, id), BlockText), StartText(UserOf(p, id)));
  }

  // ----- What an operation stores

  predicate SameHeld(p: Projection, q: Projection, id: string) {
    && (id in q.details <==> id in p.details) && (id in p.details ==> q.details[id] == p.details[id])
    && UserOf(q, id) == UserOf(p, id)
  }

  /** Outside `x`, what `q` holds it has the right size of, or holds as `p` did. */
  ghost predicate Resized(p: Projection, q: Projection, x: set<string>) {
    forall id :: id !in x ==> SizedAt(q, id) || SameHeld(p, q, id)
  }

  lemma SameResized(p: Projection, q: Projection)
    requires q.users == p.users && q.details == p.details
    ensures Resized(p, q, {})
  {
    forall id ensures SameHeld(p, q, id) {
    }
  }

  lemma ResizedThen(p: Projection, q: Projection, r: Projection, x: set<string>)
    requires Resized(p, q, x) && (Resized(q, r, x) || Resized(q, r, {}))
    ensures Resized(p, r, x)
  {
    hide TotalSize, UserSize;
    forall id | id !in x ensures SizedAt(r, id) || SameHeld(p, r, id) {
      assert SizedAt(r, id) || SameHeld(q, r, id);
    }
  }

  lemma ResizedIsSized(p: Projection, q: Projection)
    requires Resized(p, q, {}) && Sized(p)
    ensures Sized(q)
  {
    hide TotalSize, UserSize;
    forall id ensures SizedAt(q, id) {
      assert SizedAt(p, id);
    }
  }

  predicate HoldsNothing(p: Projection, id: string) {
    id !in p.details && UserOf(p, id).None?
  }

  /** `q` holds what `p` does, or less. */
  ghost predicate HoldsLess(p: Projection, q: Projection) {
    && (forall id :: SameHeld(p, q, id) || HoldsNothing(q, id))
    && forall id :: UserOf(p, id).None? ==> UserOf(q, id).None?
  }

  lemma SameHoldsLess(p: Projection, q: Projection)
    requires q.users == p.users && q.details == p.details
    ensures HoldsLess(p, q)
  {
    forall id ensures UserOf(q, id) == UserOf(p, id) {
    }
  }

  lemma HoldsLessThen(p: Projection, q: Projection, r: Projection)
    requires HoldsLess(p, q) && HoldsLess(q, r)
    ensures HoldsLess(p, r)
  {
    forall id ensures SameHeld(p, r, id) || HoldsNothing(r, id) {
      assert SameHeld(p, q, id) || HoldsNothing(q, id);
      assert SameHeld(q, r, id) || HoldsNothing(r, id);
    }
  }

  lemma LessIsResized(p: Projection, q: Projection)
    requires HoldsLess(p, q)
    ensures Resized(p, q, {})
  {
    hide SameHeld, TotalSize;
    NoSize();
    forall id ensures SizedAt(q, id) || SameHeld(p, q, id) {
      assert SameHeld(p, q, id) || HoldsNothing(q, id);
    }
  }

  lemma {:induction false} DropHolds(p: Projection, ids: seq<string>)
    ensures HoldsLess(p, DropItems(p, ids))
  {
    hide DropItem, HoldsLess;
    SameHoldsLess(p, p);
    if ids != [] {
      var q := DropItems(p, ids[..|ids| - 1]);
      DropHolds(p, ids[..|ids| - 1]);
      DropOneHolds(q, ids[|ids| - 1]);
      HoldsLessThen(p, q, DropItem(q, ids[|ids| - 1]));
    }
  }

  lemma DropOneHolds(p: Projection, id: string)
    ensures HoldsLess(p, DropItem(p, id))
  {
    hide DetailSize, DataSize;
  }

  lemma EvictHolds(p: Projection, ids: seq<string>)
    ensures HoldsLess(p, Evict(p, ids))
  {
    hide SizeOf, DropItems, EvictedHistory, HoldsLess;
    var q := p.(compactBytes := p.compactBytes - SizeOf(p.snapshot.items, ids));
    SameHoldsLess(p, q);
    DropHolds(q, ids);
    SameHoldsLess(DropItems(q, ids), Evict(p, ids));
    HoldsLessThen(p, q, DropItems(q, ids));
    HoldsLessThen(p, DropItems(q, ids), Evict(p, ids));
  }

  lemma {:induction false} EnforceHolds(p: Projection)
    ensures HoldsLess(p, Enforce(p))
    decreases |p.snapshot.items|
  {
    hide Evict, GroupOf, OverBounds, CurrentTurn, HoldsLess;
    SameHoldsLess(p, p);
    if OverBounds(p) && FirstOutside(p.snapshot.items, CurrentTurn(p)).Some? {
      var items := p.snapshot.items;
      var item := items[FirstOutside(items, CurrentTurn(p)).value];
      var ids := GroupOf(items, item);
      EvictParts(p, ids);
      GroupHasItem(items, item);
      WithoutIsShorter(items, ids);
      EvictHolds(p, ids);
      EnforceHolds(Evict(p, ids));
      HoldsLessThen(p, Evict(p, ids), Enforce(Evict(p, ids)));
    }
  }

  lemma PutEnforcedHolds(p: Projection, q: Projection, item: ActivityItem)
    requires q.users == p.users && q.details == p.details
    ensures HoldsLess(p, Enforce(PutItem(q, item)))
  {
    hide *;
    PutHolds(q, item);
    SameHoldsLess(p, PutItem(q, item));
    EnforceHolds(PutItem(q, item));
    HoldsLessThen(p, PutItem(q, item), Enforce(PutItem(q, item)));
  }

  lemma PutHolds(p: Projection, item: ActivityItem)
    ensures PutItem(p, item).users == p.users && PutItem(p, item).details == p.details
  {
    hide CompactSize;
  }

  lemma ShowHeldHolds(p: Projection, except: Option<string>)
    ensures HoldsLess(p, ShowHeld(p, except))
  {
    hide PutItem, Enforce, HoldsLess;
    SameHoldsLess(p, p);
    if p.held.Some? { PutEnforcedHolds(p, p.(held := None), p.held.value); }
  }

  /** `q` holds what `p` does, then an item is put. */
  lemma UpsertHolds(p: Projection, q: Projection, item: ActivityItem)
    requires q.users == p.users && q.details == p.details
    ensures HoldsLess(p, Upsert(q, item)) && Resized(p, Upsert(q, item), {})
  {
    hide *;
    SameHoldsLess(p, q);
    ShowHeldHolds(q, Some(item.id));
    var r := ShowHeld(q, Some(item.id));
    PutEnforcedHolds(r, r, item);
    UpsertIs(q, item);
    HoldsLessThen(p, q, r);
    HoldsLessThen(p, r, Upsert(q, item));
    LessIsResized(p, Upsert(q, item));
  }

  lemma UpsertIs(p: Projection, item: ActivityItem)
    ensures Upsert(p, item) == Enforce(PutItem(ShowHeld(p, Some(item.id)), item))
  {
    hide PutItem, Enforce, ShowHeld;
  }

  predicate FitsWith(user: Option<BlockStart>, detail: Detail) {
    DetailSize(detail) == TotalSize(if detail.Blocks? then detail.blocks else []) + UserSize(user)
  }

  lemma StoreResized(p: Projection, id: string, detail: Detail)
    requires FitsWith(UserOf(p, id), detail)
    ensures Resized(p, SetDetail(p, id, detail).0, {})
  {
    hide DetailSize, TotalSize, UserSize;
    var q := SetDetail(p, id, detail).0;
    forall other ensures SizedAt(q, other) || SameHeld(p, q, other) {
      if other != id { assert SameHeld(p, q, other); }
    }
  }

  /** Message `id` holds nothing besides its detail. */
  predicate HoldsNoStart(p: Projection, id: string) {
    UserSize(UserOf(p, id)) == 0
  }

  lemma PutTextResized(p: Projection, q: Projection, id: string, kind: ItemKind, block: DetailBlock)
    requires q.users == p.users && q.details == p.details && HoldsNoStart(p, id)
    ensures Resized(p, PutTextBlock(q, id, kind, block), {})
  {
    hide Resized, SetDetail, TextItem, Upsert, BlockSize, TotalSize, UserSize;
    var r := SetDetail(q, id, Blocks([block], BlockSize(block))).0;
    OneBlock(block);
    SameResized(p, q);
    assert UserOf(q, id) == UserOf(p, id);
    StoreResized(q, id, Blocks([block], BlockSize(block)));
    ResizedThen(p, q, r, {});
    UpsertHolds(r, r, TextItem(q, id, kind, block));
    ResizedThen(p, r, Upsert(r, TextItem(q, id, kind, block)), {});
  }

  /** A text stored for a message that holds the start of a block leaves its
      size wrong, unless the message is evicted by it. */
  lemma TextMiscounts(p: Projection, id: string, kind: ItemKind, block: DetailBlock)
    ensures var q := PutTextBlock(p, id, kind, block);
            SizedAt(q, id) <==> id !in q.details || HoldsNoStart(p, id)
  {
    hide Resized, SetDetail, TextItem, Upsert, BlockSize, TotalSize, UserSize;
    OneBlock(block);
    var r := SetDetail(p, id, Blocks([block], BlockSize(block))).0;
    var q := Upsert(r, TextItem(p, id, kind, block));
    SetHolds(p, id, Blocks([block], BlockSize(block)));
    UpsertHolds(r, r, TextItem(p, id, kind, block));
    NoSize();
    assert SameHeld(r, q, id) || HoldsNothing(q, id);
  }

  lemma SetHolds(p: Projection, id: string, detail: Detail)
    ensures var q := SetDetail(p, id, detail).0;
            id in q.details && q.details[id] == detail && q.users == p.users
  {
    hide DetailSize;
  }

  // ----- User messages

  lemma PutUserResized(o: Projection, p: Projection, id: string, user: Option<BlockStart>, block: DetailBlock,
                       segments: seq<Segment>)
    requires Resized(o, p, {id}) && CanShow(user, block)
    ensures Resized(o, PutUserMessage(p, id, user, block, segments), {})
  {
    hide Resized, ShowHeld, SetDetail, TextItem, Upsert, BlockSize, UserSize, Shown, ShowingOf;
    var q := ShowHeld(p, Some(id));
    ShowHeldHolds(p, Some(id));
    LessIsResized(p, q);
    ResizedThen(o, p, q, {id});
    var size := BlockSize(block) + UserSize(user);
    var r := SetDetail(q.(users := q.users[id := user]), id, Blocks([block], size)).0;
    UserResized(o, q, id, user, block);
    var item := TextItem(q, id, UserMessage(segments), Shown(user, block).0);
    UpsertHolds(r, r.(held := None), item);
    ResizedThen(o, r, Upsert(r.(held := None), item), {});
    SameResized(r, r.(held := None));
    ResizedThen(o, r, r.(held := None), {});
    SameResized(r, r.(held := Some(item)));
    ResizedThen(o, r, r.(held := Some(item)), {});
  }

  lemma UserResized(o: Projection, q: Projection, id: string, user: Option<BlockStart>, block: DetailBlock)
    requires Resized(o, q, {id})
    ensures Resized(o, SetDetail(q.(users := q.users[id := user]), id, Blocks([block], BlockSize(block) + UserSize(user))).0, {})
  {
    hide TotalSize, UserSize, BlockSize;
    OneBlock(block);
    var r := SetDetail(q.(users := q.users[id := user]), id, Blocks([block], BlockSize(block) + UserSize(user))).0;
    forall other ensures SizedAt(r, other) || SameHeld(o, r, other) {
      if other != id {
        assert SizedAt(q, other) || SameHeld(o, q, other);
        assert UserOf(r, other) == UserOf(q, other);
      } else {
        assert UserOf(r, id) == user && BlocksOf(r, id) == [block];
      }
    }
  }

  lemma ForgetResized(p: Projection, id: string)
    ensures Resized(p, p.(users := p.users - {id}), {id})
  {
    hide SizedAt;
    var q := p.(users := p.users - {id});
    forall other | other != id ensures SameHeld(p, q, other) {
    }
  }

  lemma MediaHolds(p: Projection, id: string, parts: seq<MediaPart>, offset: nat)
    ensures ExtendMedia(p, id, parts, offset).0.users == p.users && ExtendMedia(p, id, parts, offset).0.details == p.details
  {
    hide DataSize, HoldAll, NewSegments, MediaOf;
  }

  lemma AppendResized(p: Projection, role: Role, id: string, text: string, segments: seq<Segment>, parts: seq<MediaPart>)
    requires !Misfits(p, role, id, text) && (role == User || HoldsNoStart(p, id))
    ensures Resized(p, AppendTo(p, role, id, text, segments, parts), {})
  {
    hide Resized, KnownText, Extend, PutUserMessage, ExtendMedia, PutTextBlock, UserOf, CanShow, ExtendText, HoldsNoStart;
    SameResized(p, p);
    match KnownText(p, id)
    case None =>
    case Some(known) =>
      match role
      case User =>
        ForgetResized(p, id);
        var (user, block) := Extend(UserOf(p, id), known, text, p.retention.itemDetail);
        PutUserResized(p, p.(users := p.users - {id}), id, user, block, segments);
      case Agent =>
        var (q, media) := ExtendMedia(p, id, parts, PlaceAfter(known, text));
        MediaHolds(p, id, parts, PlaceAfter(known, text));
        PutTextResized(p, q, id, AgentMessage(media), ExtendText(known, text, NO_LIMIT));
      case Thought =>
        PutTextResized(p, p, id, Reasoning, ExtendText(known, text, p.retention.itemDetail));
  }

  lemma AddressedHolds(p: Projection, role: Role, messageId: Option<string>)
    ensures Addressed(p, role, messageId).0.users == p.users && Addressed(p, role, messageId).0.details == p.details
  {
    hide Decimal, Continues, CurrentTurn, ReplayName;
  }

  lemma MessageResized(p: Projection, role: Role, messageId: Option<string>, text: string, segments: seq<Segment>,
                       parts: seq<MediaPart>)
    requires var (q, id) := Addressed(p, role, messageId); !Misfits(q, role, id, text) && (role == User || HoldsNoStart(p, id))
    ensures Resized(p, AppendMessage(p, role, messageId, text, segments, parts), {})
  {
    hide Resized, Addressed, Misfits, AppendTo, UserSize;
    var (q, id) := Addressed(p, role, messageId);
    AddressedHolds(p, role, messageId);
    SameResized(p, q);
    assert UserOf(q, id) == UserOf(p, id);
    AppendResized(q, role, id, text, segments, parts);
    ResizedThen(p, q, AppendTo(q, role, id, text, segments, parts), {});
  }

  lemma BeginResized(p: Projection, turnId: string, text: string, segments: seq<Segment>)
    requires !TurnActive(p)
    ensures Resized(p, BeginTurn(p, turnId, text, segments), {})
  {
    hide Resized, PutUserMessage, Extend, StatusOf, CanShow;
    var q := SetTurn(p.(open := None), Some(turnId), InTurn, None);
    SameResized(p, q);
    SmallerExempts(p, q, "user:" + turnId);
    ExtendHolds(None, TextBlock(""), text, p.retention.itemDetail);
    var (user, block) := Extend(None, TextBlock(""), text, p.retention.itemDetail);
    PutUserResized(p, q, "user:" + turnId, user, block, segments);
  }

  lemma SmallerExempts(p: Projection, q: Projection, id: string)
    requires Resized(p, q, {})
    ensures Resized(p, q, {id})
  {
    hide SizedAt, SameHeld;
  }

  // ----- Every action

  /** Other details are stored for no message that holds the start of a block. */
  predicate StoresClear(p: Projection, action: Action) {
    match action
    case Message(role, messageId, _, _, _) => role == User || HoldsNoStart(p, Addressed(p, role, messageId).1)
    case Tool(update) => update.blocks.Some? ==> HoldsNoStart(p, update.id)
    case Finish(turnId, _, error) => error.Some? ==> UserOf(p, LocalId(p, turnId, "error")).None?
    case ModeIs(_, _) => HoldsNoStart(p, LocalId(p, "session", "mode"))
    case ConfigIs(_) => HoldsNoStart(p, LocalId(p, "session", "config"))
    case _ => true
  }

  lemma ResolveHolds(p: Projection, id: string, state: InteractionState, answer: Option<Answer>)
    ensures HoldsLess(p, ResolvePending(p, id, state, answer))
    ensures ResolvePending(p, id, state, answer).nextLocal == p.nextLocal
  {
    hide HoldsLess, Upsert, InteractionRecord, StatusOf;
    SameHoldsLess(p, p);
    if p.snapshot.pending.Some? && p.snapshot.pending.value.id == id {
      var pending := p.snapshot.pending.value.(state := state);
      var q := Emit(p, PendingChange(pending));
      var record := InteractionRecord(p, pending, state, answer);
      UpsertHolds(p, q, record);
      UpsertParts(q, record);
      SameHoldsLess(Upsert(q, record), RefreshStatus(Upsert(q, record)));
      HoldsLessThen(p, Upsert(q, record), RefreshStatus(Upsert(q, record)));
    }
  }

  lemma CloseHolds(p: Projection, state: InteractionState)
    ensures HoldsLess(p, ClosePending(p, state)) && ClosePending(p, state).nextLocal == p.nextLocal
  {
    hide HoldsLess, ResolvePending;
    SameHoldsLess(p, p);
    match p.snapshot.pending
    case Some(pending) => ResolveHolds(p, pending.id, state, None);
    case None =>
  }

  lemma ErrorResized(p: Projection, turnId: string, error: Option<string>)
    requires error.Some? ==> HoldsNoStart(p, LocalId(p, turnId, "error"))
    ensures Resized(p, PutError(p, turnId, error), {})
  {
    hide Resized, PutTextBlock, ExcerptOf, Decimal, UserSize;
    SameResized(p, p);
    match error
    case Some(message) =>
      var (q, id) := NextLocalId(p, turnId, "error");
      PutTextResized(p, q, id, ErrorItem, ExcerptOf(message, q.retention.itemDetail));
    case None =>
  }

  lemma FinishResized(p: Projection, turnId: string, reason: StopReason, error: Option<string>)
    requires error.Some? ==> UserOf(p, LocalId(p, turnId, "error")).None?
    ensures Resized(p, FinishTurn(p, turnId, reason, error), {})
  {
    hide Resized, HoldsLess, ClosePending, PutError, Upsert, OutcomeItem, StatusOf, Decimal, IsCurrent, UserOf;
    SameResized(p, p);
    if IsCurrent(p, turnId) {
      var q := ClosePending(p, PendingOutcome(reason));
      CloseHolds(p, PendingOutcome(reason));
      var c := q.(open := None);
      SameHoldsLess(q, c);
      HoldsLessThen(p, q, c);
      LessIsResized(p, c);
      if error.Some? { NoneHeld(p, c, LocalId(c, turnId, "error")); }
      var r := PutError(c, turnId, error);
      ErrorResized(c, turnId, error);
      ResizedThen(p, c, r, {});
      UpsertHolds(r, r, OutcomeItem(turnId, reason));
      ResizedThen(p, r, Upsert(r, OutcomeItem(turnId, reason)), {});
      SameResized(Upsert(r, OutcomeItem(turnId, reason)), FinishTurn(p, turnId, reason, error));
      ResizedThen(p, Upsert(r, OutcomeItem(turnId, reason)), FinishTurn(p, turnId, reason, error), {});
    }
  }

  lemma NoneHeld(p: Projection, q: Projection, id: string)
    requires HoldsLess(p, q) && UserOf(p, id).None?
    ensures HoldsNoStart(q, id)
  {
    hide UserOf;
    assert UserOf(q, id).None?;
  }

  lemma InterruptResized(p: Projection)
    ensures Resized(p, InterruptTurn(p), {})
  {
    hide Resized, FinishTurn, ClosePending, CurrentTurn, HoldsLess;
    match CurrentTurn(p)
    case Some(turnId) => FinishResized(p, turnId, TurnInterrupted, None);
    case None =>
      CloseHolds(p, Expired);
      LessIsResized(p, ClosePending(p, Expired));
  }

  lemma ToolResized(p: Projection, update: ToolUpdate)
    requires update.blocks.Some? ==> HoldsNoStart(p, update.id)
    ensures Resized(p, UpsertTool(p, update), {})
  {
    hide Resized, HoldsLess, ToolItem, BoundedBlocks, Upsert, SetDetail, DataSize, HoldAll, UserSize;
    var q := ToolMedia(p.(open := None), update);
    var item := ToolItem(p, update);
    SameResized(p, q);
    match update.blocks
    case Some(blocks) =>
      var r := StoreDetail(q, update.id, blocks);
      assert UserOf(q, update.id) == UserOf(p, update.id);
      DetailResized(q, update.id, blocks);
      ResizedThen(p, q, r, {});
      UpsertHolds(r, r, item);
      ResizedThen(p, r, Upsert(r, item), {});
    case None => UpsertHolds(p, q, item);
  }

  lemma DetailResized(p: Projection, id: string, blocks: seq<DetailBlock>)
    requires HoldsNoStart(p, id)
    ensures Resized(p, StoreDetail(p, id, blocks), {})
  {
    hide Resized, SetDetail, BoundedBlocks, UserSize, TotalSize;
    NoSize();
    BoundedIsWithin(blocks, p.retention.itemDetail);
    var bounded := match BoundedBlocks(blocks, p.retention.itemDetail)
                   case Kept(kept, size) => Blocks(kept, size)
                   case TooLarge => TooLargeDetail;
    StoreResized(p, id, bounded);
  }

  lemma SettingResized(p: Projection, settings: seq<Setting>, scope: string, kind: ItemKind, text: string)
    requires HoldsNoStart(p, LocalId(p, "session", scope))
    ensures Resized(p, PutSettingItem(p, settings, scope, kind, text), {})
  {
    hide Resized, PutTextBlock, ExcerptOf, Decimal, UserSize;
    var (q, id) := NextLocalId(SetSettings(p, settings), "session", scope);
    PutTextResized(p, q, id, kind, ExcerptOf(text, q.retention.itemDetail));
  }

  lemma ReleaseItemResized(p: Projection, id: string, textHeld: bool)
    ensures Resized(p, ReleaseItem(p, id, textHeld).0, {})
  {
    hide DataSize, ReleasedAll, TotalSize, UserSize;
    var q := ReleaseItem(p, id, textHeld).0;
    forall other ensures SizedAt(q, other) || SameHeld(p, q, other) {
      if other == id && !textHeld && id in p.details && DetailSize(p.details[id]) > 0 {
        NoSize();
        assert q.details[id] == ReleasedDetail && UserOf(q, id).None?;
      } else {
        assert SameHeld(p, q, other);
      }
    }
  }

  lemma {:induction false} ReleaseResized(p: Projection, candidates: seq<(string, bool)>, need: nat, freed: nat)
    ensures Resized(p, ReleaseEach(p, candidates, need, freed).0, {})
    decreases |candidates|
  {
    hide Resized, ReleaseItem;
    SameResized(p, p);
    if candidates != [] && freed < need {
      var (q, more) := ReleaseItem(p, candidates[0].0, candidates[0].1);
      ReleaseItemResized(p, candidates[0].0, candidates[0].1);
      ReleaseResized(q, candidates[1..], need, freed + more);
      ResizedThen(p, q, ReleaseEach(q, candidates[1..], need, freed + more).0, {});
    }
  }

  lemma SetterResized(p: Projection, action: Action)
    requires IsSetter(action) && !Panics(p, action)
    ensures Resized(p, Step(p, action), {})
  {
    hide *;
    var change := SetterEmits(p, action);
    EmitHolds(p, change);
    SameResized(p, p);
    SameResized(p, Emit(p, change));
  }

  lemma EmitHolds(p: Projection, change: Change)
    ensures Emit(p, change).users == p.users && Emit(p, change).details == p.details
  {
  }

  lemma EndReplayResized(p: Projection)
    ensures Resized(p, EndReplay(p), {})
  {
    hide Resized, HoldsLess, ShowHeld;
    ShowHeldHolds(p, None);
    LessIsResized(p, ShowHeld(p, None));
    SameResized(ShowHeld(p, None), EndReplay(p));
    ResizedThen(p, ShowHeld(p, None), EndReplay(p), {});
  }

  lemma StepResized(p: Projection, action: Action)
    requires StoresClear(p, action) && !Panics(p, action)
    ensures Resized(p, Step(p, action), {})
  {
    hide Resized, HoldsLess, BeginTurn, FinishTurn, InterruptTurn, ResolvePending, EndReplay, AppendMessage, UpsertTool, Upsert;
    hide PutSettingItem, ReleaseEach, Candidates, StatusOf, CurrentTurn, Decimal, HoldsNoStart, UserOf;
    SameResized(p, p);
    match action
    case Begin(turnId, text, segments) => if !TurnActive(p) { BeginResized(p, turnId, text, segments); }
    case Cancel => SameResized(p, CancellingTurn(p));
    case Finish(turnId, reason, error) => FinishResized(p, turnId, reason, error);
    case Interrupt => InterruptResized(p);
    case Pend(pending) => SameResized(p, SetPending(p, pending));
    case Resolve(id, state, answer) =>
      ResolveHolds(p, id, state, answer);
      LessIsResized(p, ResolvePending(p, id, state, answer));
    case CompleteReplay => EndReplayResized(p);
    case Message(role, messageId, text, segments, parts) => MessageResized(p, role, messageId, text, segments, parts);
    case Tool(update) => ToolResized(p, update);
    case NewPlan(entries) =>
      var turn := CurrentTurn(p);
      UpsertHolds(p, p.(open := None), ActivityItem("plan:" + turn.UnwrapOr("session"), turn, Plan(entries), None, "", false));
    case ModeIs(settings, mode) => SettingResized(p, settings, "mode", ModeChange, mode);
    case ConfigIs(settings) => SettingResized(p, settings, "config", ConfigChange, "");
    case Other(what) =>
      var (q, id) := NextLocalId(p, "session", "generic");
      UpsertHolds(p, q, ActivityItem(id, CurrentTurn(p), Generic(what), None, "", false));
    case Release(need) => ReleaseResized(p, Candidates(p.snapshot.items, CurrentTurn(p)), need, 0);
    case Look(_) =>
    case _ => SetterResized(p, action);
  }

  ghost predicate AllStoreClear(p: Projection, actions: seq<Action>) {
    actions == [] || (AllStoreClear(p, actions[..|actions| - 1]) &&
      match Run(p, actions[..|actions| - 1])
      case Some(q) => StoresClear(q, actions[|actions| - 1])
      case None => true)
  }

  /** Over any such run, the size recorded for each item is the bytes of what is
      held for it, and the detail count is the sum of these and of the media. */
  lemma {:induction false} RunIsSized(connection: Connection, history: HistoryState, replay: bool, writer: WriterState,
                                      retention: Retention, actions: seq<Action>)
    requires AllStoreClear(NewProjection(connection, history, replay, writer, retention), actions)
    ensures match Run(NewProjection(connection, history, replay, writer, retention), actions)
            case Some(p) =>
              && Sized(p) && p.detailBytes == Total(p.details, DetailSize) + Total(p.media, DataSize)
              && forall id :: RecordedSize(p, id) == Bytes(HeldText(p, id))
            case None => true
  {
    hide *;
    var p := NewProjection(connection, history, replay, writer, retention);
    RunResized(connection, history, replay, writer, retention, actions);
    RunIsSound(connection, history, replay, writer, retention, actions);
    match Run(p, actions)
    case Some(q) =>
      SoundIsAccounted(q);
      forall id ensures RecordedSize(q, id) == Bytes(HeldText(q, id)) {
        SizedSome(q, id);
        SizeIsHeld(q, id);
      }
    case None =>
  }

  lemma SizedSome(p: Projection, id: string)
    requires Sized(p)
    ensures SizedAt(p, id)
  {
    hide SizedAt;
  }

  lemma SoundIsAccounted(p: Projection)
    requires Sound(p)
    ensures p.detailBytes == Total(p.details, DetailSize) + Total(p.media, DataSize)
  {
    hide StatusIs;
  }

  lemma {:induction false} RunResized(connection: Connection, history: HistoryState, replay: bool, writer: WriterState,
                                      retention: Retention, actions: seq<Action>)
    requires AllStoreClear(NewProjection(connection, history, replay, writer, retention), actions)
    ensures match Run(NewProjection(connection, history, replay, writer, retention), actions)
            case Some(p) => Sized(p)
            case None => true
  {
    hide Sized, Resized, Step, StoresClear, Panics;
    var p := NewProjection(connection, history, replay, writer, retention);
    if actions == [] {
      NewIsSized(connection, history, replay, writer, retention);
    } else {
      var n := |actions| - 1;
      RunResized(connection, history, replay, writer, retention, actions[..n]);
      match Run(p, actions[..n])
      case Some(q) =>
        if !Panics(q, actions[n]) {
          StepResized(q, actions[n]);
          ResizedIsSized(q, Step(q, actions[n]));
        }
      case None =>
    }
  }

  lemma NewIsSized(connection: Connection, history: HistoryState, replay: bool, writer: WriterState, retention: Retention)
    ensures Sized(NewProjection(connection, history, replay, writer, retention))
  {
  }
}
