/** The projection of one session as a value: its snapshot and log of deltas,
    its item detail, and every operation on them. `projection.rs`. */
module Projection {
  import opened Text
  import opened RoutineBlock
  import opened BlockScan
  import opened RoutinePrompt
  import opened DetailText
  import opened UserTexts
  import opened Activity

  const SUMMARY_LIMIT: nat := 4 * 1024
  const ITEM_OVERHEAD: nat := 64
  /** `usize::MAX`, the bound of a text held whole. */
  const NO_LIMIT: nat := 0xFFFF_FFFF_FFFF_FFFF

  datatype Retention = Retention(sessionItems: nat, sessionBytes: nat, itemDetail: nat, mediaItem: nat)

  datatype Role = User | Agent | Thought

  /** Detail of an item: its content with its size, or why there is none. */
  datatype Detail = Blocks(blocks: seq<DetailBlock>, size: nat) | TooLargeDetail | ReleasedDetail

  /** The data of a media segment, by its size. */
  datatype MediaData = HeldData(bytes: nat) | NoData | TooLargeData | ReleasedData

  datatype MediaPart = MediaPart(name: Option<string>, mimeType: Option<string>, path: Option<string>, data: Option<nat>)

  /** A replay in progress: how many turns it began, and the last of them. */
  datatype ReplayState = ReplayState(turns: nat, turn: Option<string>)

  /** An item as first inserted. */
  datatype Entry = Entry(id: string, turn: Option<string>)

  datatype ToolUpdate = ToolUpdate(id: string, kind: ItemKind, status: Option<ItemStatus>, title: Option<string>,
                                   blocks: Option<seq<DetailBlock>>, media: Option<seq<MediaPart>>)

  /** `base`, `sent` and `inserted` record the first snapshot, every delta sent
      and every first insertion of an item; nothing reads them. */
  datatype Projection = Projection(
    base: Snapshot, snapshot: Snapshot, sent: seq<Delta>, inserted: seq<Entry>,
    compactBytes: int, held: Option<ActivityItem>, replay: Option<ReplayState>,
    open: Option<(Role, string)>, nextLocal: nat,
    details: map<string, Detail>, media: map<string, seq<MediaData>>, users: map<string, Option<BlockStart>>,
    detailBytes: int, retention: Retention)

  function NewProjection(connection: Connection, history: HistoryState, replay: bool, writer: WriterState,
                         retention: Retention): Projection {
    var turn := TurnState(None, NoTurn, None, Idle(None));
    var base := Snapshot(0, connection, turn, [], None, history, writer, [], [], None, None);
    Projection(base, base, [], [], 0, None, if replay then Some(ReplayState(0, None)) else None,
               None, 0, map[], map[], map[], 0, retention)
  }

  // ----- Numbers in ids

  function Digit(d: nat): char
    requires d < 10
  {
    "0123456789"[d]
  }

  function Decimal(n: nat): string {
    if n < 10 then [Digit(n)] else Decimal(n / 10) + [Digit(n % 10)]
  }

  // ----- Sizes

  function SumSizes<T>(items: seq<T>, size: T -> nat): nat {
    if items == [] then 0 else SumSizes(items[..|items| - 1], size) + size(items[|items| - 1])
  }

  function TextSize(text: Option<string>): nat {
    Bytes(text.UnwrapOr(""))
  }

  function MediaSize(s: MediaSegment): nat {
    ITEM_OVERHEAD + Bytes(s.id) + TextSize(s.name) + TextSize(s.mimeType) + TextSize(s.path)
  }

  function SegmentSize(s: Segment): nat {
    match s
    case TextSegment(text) => Bytes(text)
    case LinkSegment(uri, name) => Bytes(uri) + Bytes(name)
    case ImageSegment(uri, name) => TextSize(uri) + TextSize(name)
  }

  function LocationSize(path: string): nat {
    Bytes(path) + ITEM_OVERHEAD / 4
  }

  function CallSize(call: (string, string)): nat {
    Bytes(call.0) + Bytes(call.1)
  }

  function TextBytes(text: string): nat {
    Bytes(text)
  }

  function KindSize(kind: ItemKind): nat {
    match kind
    case UserMessage(segments) => SumSizes(segments, SegmentSize)
    case AgentMessage(media) => SumSizes(media, MediaSize)
    case ToolCall(media, locations, calls) =>
      SumSizes(media, MediaSize)
      + SumSizes(locations, LocationSize)
      + SumSizes(calls, CallSize)
    case Plan(entries) => SumSizes(entries, TextBytes)
    case Interaction(_, _, _, option, _) => TextSize(option)
    case Generic(what) => Bytes(what)
    case _ => 0
  }

  /** `compact_size` */
  function CompactSize(item: ActivityItem): nat {
    ITEM_OVERHEAD + Bytes(item.id) + TextSize(item.turnId) + Bytes(item.summary) + KindSize(item.kind)
  }

  function SumCompact(items: seq<ActivityItem>): nat {
    SumSizes(items, CompactSize)
  }

  function DetailSize(detail: Detail): nat {
    match detail case Blocks(_, size) => size case _ => 0
  }

  function DatumSize(datum: MediaData): nat {
    match datum case HeldData(bytes) => bytes case _ => 0
  }

  function DataSize(data: seq<MediaData>): nat {
    SumSizes(data, DatumSize)
  }

  // ----- Turns and status

  predicate TurnActive(p: Projection) {
    p.snapshot.turn.phase != NoTurn
  }

  /** The live turn, or the turn being replayed. */
  function CurrentTurn(p: Projection): Option<string> {
    if TurnActive(p) then p.snapshot.turn.turnId
    else match p.replay case Some(replay) => replay.turn case None => None
  }

  function StatusOf(phase: Phase, outcome: Option<StopReason>, pending: Option<PendingInteraction>): Status {
    if phase == NoTurn then Idle(outcome)
    else match pending case Some(request) => RequiresAction(request.kind) case None => Running
  }

  function Emit(p: Projection, change: Change): Projection {
    var delta := Delta(p.snapshot.seqNo + 1, change);
    p.(snapshot := Applied(p.snapshot, delta).0, sent := p.sent + [delta])
  }

  function SetTurn(p: Projection, turnId: Option<string>, phase: Phase, outcome: Option<StopReason>): Projection {
    Emit(p, TurnChange(TurnState(turnId, phase, outcome, StatusOf(phase, outcome, p.snapshot.pending))))
  }

  function RefreshStatus(p: Projection): Projection {
    var turn := p.snapshot.turn;
    if StatusOf(turn.phase, turn.lastOutcome, p.snapshot.pending) != turn.status
    then SetTurn(p, turn.turnId, turn.phase, turn.lastOutcome)
    else p
  }

  // ----- Detail

  function SetDetail(p: Projection, id: string, detail: Detail): (Projection, nat) {
    var earlier := if id in p.details then DetailSize(p.details[id]) else 0;
    (p.(details := p.details[id := detail], detailBytes := p.detailBytes + DetailSize(detail) - earlier), earlier)
  }

  function TakeMedia(p: Projection, id: string): (Projection, seq<MediaData>) {
    var data := if id in p.media then p.media[id] else [];
    (p.(media := p.media - {id}, detailBytes := p.detailBytes - DataSize(data)), data)
  }

  function PutMedia(p: Projection, id: string, data: seq<MediaData>): Projection {
    var earlier := if id in p.media then DataSize(p.media[id]) else 0;
    p.(media := p.media[id := data], detailBytes := p.detailBytes + DataSize(data) - earlier)
  }

  /** The data of `part` within the per-item bound. */
  function Hold(part: MediaPart, limit: nat): MediaData {
    match part.data
    case None => NoData
    case Some(bytes) => if bytes > limit then TooLargeData else HeldData(bytes)
  }

  function HoldAll(parts: seq<MediaPart>, limit: nat): seq<MediaData> {
    if parts == [] then [] else HoldAll(parts[..|parts| - 1], limit) + [Hold(parts[|parts| - 1], limit)]
  }

  function ReleasedAll(data: seq<MediaData>): (r: seq<MediaData>)
    ensures |r| == |data|
  {
    if data == [] then []
    else
      var last := data[|data| - 1];
      ReleasedAll(data[..|data| - 1]) + [if last.HeldData? then ReleasedData else last]
  }

  function ReleaseMedia(p: Projection, id: string): (Projection, nat) {
    if id !in p.media then (p, 0)
    else
      var freed := DataSize(p.media[id]);
      (p.(media := p.media[id := ReleasedAll(p.media[id])], detailBytes := p.detailBytes - freed), freed)
  }

  // ----- Eviction

  /** Drops what is held for the evicted item `id`. */
  function DropItem(p: Projection, id: string): Projection {
    var size := if id in p.details then DetailSize(p.details[id]) else 0;
    TakeMedia(p.(details := p.details - {id}, detailBytes := p.detailBytes - size), id).0.(users := p.users - {id})
  }

  function DropItems(p: Projection, ids: seq<string>): Projection {
    if ids == [] then p else DropItem(DropItems(p, ids[..|ids| - 1]), ids[|ids| - 1])
  }

  function SizeOf(items: seq<ActivityItem>, ids: seq<string>): nat {
    SumSizes(items, (item: ActivityItem) => if item.id in ids then CompactSize(item) else 0)
  }

  /** The turns of the evicted items. */
  function TurnsOf(items: seq<ActivityItem>, ids: seq<string>): set<string> {
    set item | item in items && item.id in ids && item.turnId.Some? :: item.turnId.value
  }

  function EvictedHistory(p: Projection, ids: seq<string>): HistoryState {
    var history := p.snapshot.history;
    history.(truncatedItems := Some(history.truncatedItems.UnwrapOr(0) + |ids|),
             truncatedTurns := Some(history.truncatedTurns.UnwrapOr(0) + |TurnsOf(p.snapshot.items, ids)|))
  }

  /** `evict` */
  function Evict(p: Projection, ids: seq<string>): Projection {
    var q := DropItems(p.(compactBytes := p.compactBytes - SizeOf(p.snapshot.items, ids)), ids);
    var open := if q.open.Some? && q.open.value.1 in ids then None else q.open;
    Emit(q.(open := open), Truncated(ids, EvictedHistory(p, ids)))
  }

  predicate OverBounds(p: Projection) {
    |p.snapshot.items| > p.retention.sessionItems || p.compactBytes > p.retention.sessionBytes
  }

  predicate IsOutside(item: ActivityItem, current: Option<string>) {
    item.turnId.None? || item.turnId != current
  }

  /** The oldest item outside the current turn. */
  function FirstOutside(items: seq<ActivityItem>, current: Option<string>): (r: Option<nat>)
    ensures r.Some? ==> r.value < |items| && IsOutside(items[r.value], current)
                        && forall j :: 0 <= j < r.value ==> !IsOutside(items[j], current)
    ensures r.None? ==> forall j :: 0 <= j < |items| ==> !IsOutside(items[j], current)
  {
    if items == [] then None
    else
      match FirstOutside(items[..|items| - 1], current)
      case Some(i) => Some(i)
      case None => if IsOutside(items[|items| - 1], current) then Some(|items| - 1) else None
  }

  function IdsOfTurn(items: seq<ActivityItem>, turn: string): (ids: seq<string>)
    ensures forall item :: item in items && item.turnId == Some(turn) ==> item.id in ids
  {
    if items == [] then []
    else
      var last := items[|items| - 1];
      IdsOfTurn(items[..|items| - 1], turn) + (if last.turnId == Some(turn) then [last.id] else [])
  }

  /** What is evicted with `item`: its whole turn, or itself outside a turn. */
  function GroupOf(items: seq<ActivityItem>, item: ActivityItem): seq<string> {
    match item.turnId
    case Some(turn) => IdsOfTurn(items, turn)
    case None => [item.id]
  }

  lemma GroupHasItem(items: seq<ActivityItem>, item: ActivityItem)
    requires item in items
    ensures item.id in GroupOf(items, item)
  {
  }

  lemma {:induction false} WithoutShrinks(items: seq<ActivityItem>, ids: seq<string>, k: nat)
    ensures |Without(items, ids)| <= |items|
    ensures k < |items| && items[k].id in ids ==> |Without(items, ids)| < |items|
  {
    if items != [] { WithoutShrinks(items[..|items| - 1], ids, k); }
  }

  lemma WithoutIsShorter(items: seq<ActivityItem>, ids: seq<string>)
    ensures |Without(items, ids)| <= |items|
    ensures (exists item :: item in items && item.id in ids) ==> |Without(items, ids)| < |items|
  {
    WithoutShrinks(items, ids, 0);
    if item :| item in items && item.id in ids {
      var k :| 0 <= k < |items| && items[k] == item;
      WithoutShrinks(items, ids, k);
    }
  }

  lemma DroppedKeeps(p: Projection, ids: seq<string>)
    ensures var q := DropItems(p, ids);
            q == p.(details := q.details, media := q.media, users := q.users, detailBytes := q.detailBytes)
  {
  }

  lemma EvictedItems(p: Projection, ids: seq<string>)
    ensures Evict(p, ids).snapshot.items == Without(p.snapshot.items, ids)
    ensures Evict(p, ids).retention == p.retention
  {
    hide SizeOf, EvictedHistory, DropItems;
    DroppedKeeps(p.(compactBytes := p.compactBytes - SizeOf(p.snapshot.items, ids)), ids);
  }

  /** `enforce_session_bounds` */
  function Enforce(p: Projection): Projection
    decreases |p.snapshot.items|
  {
    if !OverBounds(p) then p
    else
      match FirstOutside(p.snapshot.items, CurrentTurn(p))
      case None => p
      case Some(i) =>
        var item := p.snapshot.items[i];
        var ids := GroupOf(p.snapshot.items, item);
        EvictedItems(p, ids);
        assert item in p.snapshot.items && item.id in ids;
        WithoutIsShorter(p.snapshot.items, ids);
        Enforce(Evict(p, ids))
  }

  // ----- Items

  /** Puts `item` in the list before the bounds are enforced. */
  function PutItem(p: Projection, item: ActivityItem): Projection {
    var known := IndexOf(p.snapshot.items, item.id);
    var earlier := match known case Some(i) => CompactSize(p.snapshot.items[i]) case None => 0;
    Emit(p.(compactBytes := p.compactBytes - earlier + CompactSize(item),
            inserted := if known.Some? then p.inserted else p.inserted + [Entry(item.id, item.turnId)]),
         ItemChange(item))
  }

  /** `show_held_user` */
  function ShowHeld(p: Projection, except: Option<string>): Projection {
    match p.held
    case Some(item) => if except == Some(item.id) then p else Enforce(PutItem(p.(held := None), item))
    case None => p
  }

  /** `upsert` */
  function Upsert(p: Projection, item: ActivityItem): Projection {
    Enforce(PutItem(ShowHeld(p, Some(item.id)), item))
  }

  function NextLocalId(p: Projection, scope: string, kind: string): (Projection, string) {
    (p.(nextLocal := p.nextLocal + 1), scope + ":" + kind + ":" + Decimal(p.nextLocal + 1))
  }

  /** `text_item` */
  function TextItem(p: Projection, id: string, kind: ItemKind, block: DetailBlock): ActivityItem {
    var head := match block case TextBlock(text) => text case Excerpt(h, _, _) => h case _ => "";
    var turn := match IndexOf(p.snapshot.items, id)
                case Some(i) => p.snapshot.items[i].turnId
                case None => CurrentTurn(p);
    ActivityItem(id, turn, kind, None, Bounded(head, SUMMARY_LIMIT), block.Excerpt? || Bytes(head) > SUMMARY_LIMIT)
  }

  /** `put_text_block` */
  function PutTextBlock(p: Projection, id: string, kind: ItemKind, block: DetailBlock): Projection {
    var item := TextItem(p, id, kind, block);
    Upsert(SetDetail(p, id, Blocks([block], BlockSize(block))).0, item)
  }

  function PutTextItem(p: Projection, id: string, kind: ItemKind, text: string): Projection {
    PutTextBlock(p, id, kind, ExcerptOf(text, p.retention.itemDetail))
  }

  // ----- User messages

  /** Bytes a user text holds besides its detail. */
  function UserSize(user: Option<BlockStart>): nat {
    match user
    case None => 0
    case Some(b) => Held(b.scan) + (match b.before case InHead(_) => 0 case After(_, tail) => Bytes(tail))
  }

  /** What to do with a user message put: show it, hold it back while it is
      only the start of a block, or not show it at all. */
  datatype Showing = ShowNow | HoldBack | Hide

  function ShowingOf(p: Projection, item: ActivityItem, block: DetailBlock, removed: nat): Showing {
    var shown := IndexOf(p.snapshot.items, item.id).Some?;
    var textOnly := item.kind.UserMessage? && item.kind.segments == [];
    var empty := removed > 0 && item.summary == "" && textOnly;
    var starts := p.replay.Some? && !shown && textOnly && block.TextBlock? && StripBlock(block.text, Cut) == "";
    if starts && !empty then HoldBack else if !empty || shown then ShowNow else Hide
  }

  /** `put_user_message`; `segments` are those the item shows. */
  function PutUserMessage(p: Projection, id: string, user: Option<BlockStart>, block: DetailBlock,
                          segments: seq<Segment>): Projection
    requires CanShow(user, block)
  {
    var q := ShowHeld(p, Some(id));
    var (text, removed) := Shown(user, block);
    var item := TextItem(q, id, UserMessage(segments), text);
    var showing := ShowingOf(q, item, block, removed);
    var r := SetDetail(q.(users := q.users[id := user]), id, Blocks([block], BlockSize(block) + UserSize(user))).0;
    match showing
    case HoldBack => r.(held := Some(item))
    case ShowNow => Upsert(r.(held := None), item)
    case Hide => r.(held := None)
  }

  // ----- Turns

  /** `begin_turn`, while no turn is active */
  function BeginTurn(p: Projection, turnId: string, text: string, segments: seq<Segment>): Projection
    requires !TurnActive(p)
  {
    var q := SetTurn(p.(open := None), Some(turnId), InTurn, None);
    var (user, block) := Extend(None, TextBlock(""), text, p.retention.itemDetail);
    ExtendHolds(None, TextBlock(""), text, p.retention.itemDetail);
    PutUserMessage(q, "user:" + turnId, user, block, segments)
  }

  lemma ExtendHolds(user: Option<BlockStart>, known: DetailBlock, more: string, limit: nat)
    requires HeadHolds(user, known)
    ensures var (next, block) := Extend(user, known, more, limit); HeadHolds(next, block) && CanShow(next, block)
  {
    hide Bytes, LiveStart, Read, IsAlive, TailStart, HeadEnd, IsCharBoundary, FirstBlockStart;
    match known
    case TextBlock(text) =>
      if limit < Bytes(text + more) { FirstHolds(text + more, limit); }
    case _ =>
  }

  lemma FirstHolds(text: string, limit: nat)
    ensures var start := FirstBlockStart(text, limit);
            start.Some? && start.value.before.InHead? ==> IsCharBoundary(text[..HeadEnd(text, limit)], start.value.before.start)
  {
    hide Bytes, LiveStart, Read, IsAlive, TailStart, HeadEnd;
    if LiveStart(text).Some? && LiveStart(text).value <= HeadEnd(text, limit) {
      var start := LiveStart(text).value;
      assert text[..HeadEnd(text, limit)][..start] == text[..start];
    }
  }

  /** `cancelling` */
  function CancellingTurn(p: Projection): Projection {
    if p.snapshot.turn.phase == InTurn then SetTurn(p, p.snapshot.turn.turnId, Cancelling, p.snapshot.turn.lastOutcome) else p
  }

  function PendingOutcome(reason: StopReason): InteractionState {
    if reason == TurnCancelled then Cancelled else Expired
  }

  datatype Answer = ChooseOption(optionId: string) | FillFields | Decline

  function CaptionOf(options: seq<InteractionOption>, id: string): Option<string> {
    if options == [] then None
    else if options[0].id == id then Some(options[0].caption)
    else CaptionOf(options[1..], id)
  }

  function InteractionRecord(p: Projection, pending: PendingInteraction, state: InteractionState,
                             answer: Option<Answer>): ActivityItem {
    var option := match answer
                  case Some(ChooseOption(id)) => CaptionOf(pending.options, id)
                  case _ => None;
    ActivityItem(pending.id, CurrentTurn(p),
                 Interaction(pending.kind, state, pending.toolCallId, option, answer == Some(Decline)),
                 None, Bounded(pending.title, SUMMARY_LIMIT), false)
  }

  /** `resolve_pending` */
  function ResolvePending(p: Projection, id: string, state: InteractionState, answer: Option<Answer>): Projection {
    if p.snapshot.pending.None? || p.snapshot.pending.value.id != id then p
    else
      var pending := p.snapshot.pending.value.(state := state);
      var record := InteractionRecord(p, pending, state, answer);
      RefreshStatus(Upsert(Emit(p, PendingChange(pending)), record))
  }

  /** `set_pending` */
  function SetPending(p: Projection, pending: PendingInteraction): Projection {
    RefreshStatus(Emit(p, PendingChange(pending)))
  }

  function OutcomeItem(turnId: string, reason: StopReason): ActivityItem {
    ActivityItem("outcome:" + turnId, Some(turnId),
                 if reason == TurnInterrupted then InterruptedItem else TurnOutcome(reason), None, "", false)
  }

  predicate IsCurrent(p: Projection, turnId: string) {
    TurnActive(p) && p.snapshot.turn.turnId == Some(turnId)
  }

  function ClosePending(p: Projection, state: InteractionState): Projection {
    match p.snapshot.pending
    case Some(pending) => ResolvePending(p, pending.id, state, None)
    case None => p
  }

  function PutError(p: Projection, turnId: string, error: Option<string>): Projection {
    match error
    case Some(message) =>
      var (q, id) := NextLocalId(p, turnId, "error");
      PutTextItem(q, id, ErrorItem, message)
    case None => p
  }

  /** `finish_turn` */
  function FinishTurn(p: Projection, turnId: string, reason: StopReason, error: Option<string>): Projection {
    if !IsCurrent(p, turnId) then p
    else
      var q := ClosePending(p, PendingOutcome(reason));
      var r := PutError(q.(open := None), turnId, error);
      SetTurn(Upsert(r, OutcomeItem(turnId, reason)), Some(turnId), NoTurn, Some(reason))
  }

  /** `interrupt` */
  function InterruptTurn(p: Projection): Projection {
    match CurrentTurn(p)
    case Some(turnId) => FinishTurn(p, turnId, TurnInterrupted, None)
    case None => ClosePending(p, Expired)
  }

  /** `end_replay` */
  function EndReplay(p: Projection): Projection {
    ShowHeld(p, None).(replay := None, open := None)
  }

  function ReplayName(turn: nat): string {
    "replay:" + Decimal(turn)
  }

  /** `next_replay_turn` */
  function NextReplayTurn(p: Projection): Projection {
    match p.replay
    case Some(replay) =>
      p.(replay := Some(ReplayState(replay.turns + 1, Some(ReplayName(replay.turns + 1)))), open := None)
    case None => p.(open := None)
  }

  // ----- What the agent sends

  /** A replayed user chunk goes on with the open user message. */
  predicate Continues(p: Projection, messageId: Option<string>) {
    p.open.Some? && p.open.value.0 == User && (messageId.None? || messageId == Some(p.open.value.1))
  }

  function MessageIdOf(p: Projection, role: Role, messageId: Option<string>): (Projection, string) {
    if messageId.Some? then (p, messageId.value)
    else if p.open.Some? && p.open.value.0 == role then (p, p.open.value.1)
    else NextLocalId(p, CurrentTurn(p).UnwrapOr("session"), "message")
  }

  /** The text known of a message, if it is text and still held. */
  function KnownText(p: Projection, id: string): Option<DetailBlock> {
    if id !in p.details then Some(TextBlock(""))
    else
      match p.details[id]
      case Blocks(blocks, _) =>
        Some(if blocks != [] && (blocks[0].TextBlock? || blocks[0].Excerpt?) then blocks[0] else TextBlock(""))
      case _ => None
  }

  function UserOf(p: Projection, id: string): Option<BlockStart> {
    if id in p.users then p.users[id] else None
  }

  function NewSegments(parts: seq<MediaPart>, from: nat, offset: nat, limit: nat): seq<MediaSegment> {
    if parts == [] then []
    else
      var part := parts[|parts| - 1];
      NewSegments(parts[..|parts| - 1], from, offset, limit)
      + [MediaSegment(Decimal(from + |parts| - 1), part.name, part.mimeType, part.path, Hold(part, limit) != NoData, Some(offset))]
  }

  function MediaOf(p: Projection, id: string): seq<MediaSegment> {
    match IndexOf(p.snapshot.items, id)
    case Some(i) => (match p.snapshot.items[i].kind case AgentMessage(media) => media case _ => [])
    case None => []
  }

  /** `utf16_len` */
  function Utf16Length(block: DetailBlock): nat {
    match block
    case TextBlock(text) => Utf16(text)
    case Excerpt(head, omitted, tail) => Utf16(head) + Utf16(tail) + omitted
    case _ => 0
  }

  /** Where the media of a chunk stand: after the text so far and the chunk's. */
  function PlaceAfter(known: DetailBlock, text: string): nat {
    Utf16Length(known) + Utf16(text)
  }

  /** `extend_message_media` */
  function ExtendMedia(p: Projection, id: string, parts: seq<MediaPart>, offset: nat): (Projection, seq<MediaSegment>) {
    var segments := MediaOf(p, id);
    if parts == [] then (p, segments)
    else
      var (q, data) := TakeMedia(p, id);
      (PutMedia(q, id, data + HoldAll(parts, p.retention.mediaItem)),
       segments + NewSegments(parts, |segments|, offset, p.retention.mediaItem))
  }

  /** The state in which a chunk is put in its message, and the message. */
  function Addressed(p: Projection, role: Role, messageId: Option<string>): (Projection, string) {
    var q := if role == User && p.replay.Some? && !Continues(p, messageId) then NextReplayTurn(p) else p;
    var (r, id) := MessageIdOf(q, role, messageId);
    (r.(open := Some((role, id))), id)
  }

  /** Extended by the chunk, the user text held of message `id` would slice the
      head held of it where no character ends: the code panics. */
  predicate Misfits(p: Projection, role: Role, id: string, text: string) {
    role == User &&
    match KnownText(p, id)
    case Some(known) =>
      var (user, block) := Extend(UserOf(p, id), known, text, p.retention.itemDetail);
      !CanShow(user, block)
    case None => false
  }

  /** `append_message`; `segments` are those a user message then shows. */
  function AppendMessage(p: Projection, role: Role, messageId: Option<string>, text: string,
                         segments: seq<Segment>, parts: seq<MediaPart>): Projection
    requires var (q, id) := Addressed(p, role, messageId); !Misfits(q, role, id, text)
  {
    var (q, id) := Addressed(p, role, messageId);
    AppendTo(q, role, id, text, segments, parts)
  }

  function AppendTo(p: Projection, role: Role, id: string, text: string,
                    segments: seq<Segment>, parts: seq<MediaPart>): Projection
    requires !Misfits(p, role, id, text)
  {
    match KnownText(p, id)
    case None => p
    case Some(known) =>
      match role
      case User =>
        var (user, block) := Extend(UserOf(p, id), known, text, p.retention.itemDetail);
        PutUserMessage(p.(users := p.users - {id}), id, user, block, segments)
      case Agent =>
        var (q, media) := ExtendMedia(p, id, parts, PlaceAfter(known, text));
        PutTextBlock(q, id, AgentMessage(media), ExtendText(known, text, NO_LIMIT))
      case Thought =>
        PutTextBlock(p, id, Reasoning, ExtendText(known, text, p.retention.itemDetail))
  }

  function StoreDetail(p: Projection, id: string, blocks: seq<DetailBlock>): Projection {
    var bounded := match BoundedBlocks(blocks, p.retention.itemDetail)
                   case Kept(kept, size) => Blocks(kept, size)
                   case TooLarge => TooLargeDetail;
    SetDetail(p, id, bounded).0
  }

  function ToolMedia(p: Projection, update: ToolUpdate): Projection {
    match update.media
    case Some(parts) => PutMedia(TakeMedia(p, update.id).0, update.id, HoldAll(parts, p.retention.mediaItem))
    case None => p
  }

  function ToolItem(p: Projection, update: ToolUpdate): ActivityItem {
    var summary := match update.title case Some(title) => Some(Bounded(title, SUMMARY_LIMIT)) case None => None;
    match IndexOf(p.snapshot.items, update.id)
    case Some(i) =>
      var known := p.snapshot.items[i];
      ActivityItem(update.id, known.turnId, update.kind, if update.status.Some? then update.status else known.status,
                   summary.UnwrapOr(known.summary), if update.blocks.Some? then update.blocks.value != [] else known.hasDetail)
    case None =>
      ActivityItem(update.id, CurrentTurn(p), update.kind, if update.status.Some? then update.status else Some(ItemPending),
                   summary.UnwrapOr(""), update.blocks.Some? && update.blocks.value != [])
  }

  /** `upsert_tool`; `update.kind` is the tool call as the update leaves it. */
  function UpsertTool(p: Projection, update: ToolUpdate): Projection {
    var q := ToolMedia(p.(open := None), update);
    var item := ToolItem(p, update);
    var r := match update.blocks case Some(blocks) => StoreDetail(q, update.id, blocks) case None => q;
    Upsert(r, item)
  }

  /** `put_plan` */
  function PutPlan(p: Projection, entries: seq<string>): Projection {
    var turn := CurrentTurn(p);
    Upsert(p.(open := None), ActivityItem("plan:" + turn.UnwrapOr("session"), turn, Plan(entries), None, "", false))
  }

  function SetSettings(p: Projection, settings: seq<Setting>): Projection {
    if p.snapshot.settings != settings then Emit(p, SettingsChange(settings)) else p
  }

  /** A mode or config change: the settings it leaves, then its item. */
  function PutSettingItem(p: Projection, settings: seq<Setting>, scope: string, kind: ItemKind, text: string): Projection {
    var (q, id) := NextLocalId(SetSettings(p, settings), "session", scope);
    PutTextItem(q, id, kind, text)
  }

  function PutGeneric(p: Projection, what: string): Projection {
    var (q, id) := NextLocalId(p, "session", "generic");
    Upsert(q, ActivityItem(id, CurrentTurn(p), Generic(what), None, "", false))
  }

  function SetConnection(p: Projection, connection: Connection): Projection {
    if p.snapshot.connection != connection then Emit(p, ConnectionChange(connection)) else p
  }

  function SetWriter(p: Projection, writer: WriterState): Projection {
    if p.snapshot.writer != writer then Emit(p, WriterChange(writer)) else p
  }

  function SetCommands(p: Projection, commands: seq<string>): Projection {
    if p.snapshot.commands != commands then Emit(p, CommandsChange(commands)) else p
  }

  function SetUsage(p: Projection, usage: nat): Projection {
    if p.snapshot.usage != Some(usage) then Emit(p, UsageChange(usage)) else p
  }

  function SetTitle(p: Projection, title: string): Projection {
    if p.snapshot.title != Some(title) then Emit(p, TitleChange(title)) else p
  }

  // ----- Looking up detail

  datatype Reason = WasTooLarge | WasReleased | NotProvided

  datatype DetailOutcome = Available(blocks: seq<DetailBlock>) | Unavailable(reason: Reason) | NoSuchItem

  /** What a consumer is shown of the blocks held with a user text. */
  function ShownBlocks(user: Option<BlockStart>, blocks: seq<DetailBlock>): (shown: seq<DetailBlock>)
    requires forall i :: 0 <= i < |blocks| ==> CanShow(user, blocks[i])
    ensures |shown| == |blocks|
  {
    if blocks == [] then []
    else ShownBlocks(user, blocks[..|blocks| - 1]) + [Shown(user, blocks[|blocks| - 1]).0]
  }

  /** The user text held of item `id` would slice a head held of it where no
      character ends: the code panics. */
  predicate LookupMisfits(p: Projection, id: string) {
    && id in p.users && id in p.details && p.details[id].Blocks?
    && exists i :: 0 <= i < |p.details[id].blocks| && !CanShow(p.users[id], p.details[id].blocks[i])
  }

  /** `detail` */
  function LookUp(p: Projection, id: string): DetailOutcome
    requires !LookupMisfits(p, id)
  {
    if id in p.details then
      match p.details[id]
      case Blocks(blocks, _) => Available(if id in p.users then ShownBlocks(p.users[id], blocks) else blocks)
      case TooLargeDetail => Unavailable(WasTooLarge)
      case ReleasedDetail => Unavailable(WasReleased)
    else if IndexOf(p.snapshot.items, id).Some? then Unavailable(NotProvided)
    else NoSuchItem
  }

  datatype MediaOutcome = MediaAvailable(bytes: nat) | MediaUnavailable(reason: Reason) | NoSuchMedia

  /** `media_of` */
  function MediaSegments(kind: ItemKind): seq<MediaSegment> {
    match kind
    case AgentMessage(media) => media
    case ToolCall(media, _, _) => media
    case _ => []
  }

  function SegmentOf(segments: seq<MediaSegment>, id: string): (r: Option<nat>)
    ensures r.Some? ==> r.value < |segments| && segments[r.value].id == id
    ensures r.None? ==> forall k :: 0 <= k < |segments| ==> segments[k].id != id
  {
    if segments == [] then None
    else if segments[0].id == id then Some(0)
    else match SegmentOf(segments[1..], id) case Some(k) => Some(k + 1) case None => None
  }

  function DigitValue(c: char): nat {
    if '0' <= c <= '9' then c as int - '0' as int else 10
  }

  /** `str::parse` of an index */
  function ParsedIndex(s: string): Option<nat> {
    if s == "" then None
    else if s[0] == '+' then Parsed(s[1..])
    else Parsed(s)
  }

  function Parsed(s: string): Option<nat> {
    if s == "" || DigitValue(s[|s| - 1]) == 10 then None
    else if |s| == 1 then Some(DigitValue(s[0]))
    else match Parsed(s[..|s| - 1]) case Some(n) => Some(10 * n + DigitValue(s[|s| - 1])) case None => None
  }

  /** The datum of a segment, if it has any. */
  function DatumOf(p: Projection, id: string, segment: MediaSegment): MediaData {
    match ParsedIndex(segment.id)
    case Some(n) => if segment.hasData && id in p.media && n < |p.media[id]| then p.media[id][n] else NoData
    case None => NoData
  }

  /** `media` */
  function LookUpMedia(p: Projection, id: string, segmentId: string): MediaOutcome {
    match IndexOf(p.snapshot.items, id)
    case None => NoSuchMedia
    case Some(i) =>
      var segments := MediaSegments(p.snapshot.items[i].kind);
      match SegmentOf(segments, segmentId)
      case None => NoSuchMedia
      case Some(k) =>
        match DatumOf(p, id, segments[k])
        case HeldData(bytes) => MediaAvailable(bytes)
        case TooLargeData => MediaUnavailable(WasTooLarge)
        case ReleasedData => MediaUnavailable(WasReleased)
        case NoData => MediaUnavailable(NotProvided)
  }

  // ----- Releasing detail

  /** Items whose detail may be released, oldest first, and whether their text
      stays. */
  function Candidates(items: seq<ActivityItem>, current: Option<string>): seq<(string, bool)> {
    if items == [] then []
    else
      var last := items[|items| - 1];
      Candidates(items[..|items| - 1], current)
      + (if current.None? || last.turnId != current then [(last.id, last.kind.AgentMessage?)] else [])
  }

  function ReleaseItem(p: Projection, id: string, textHeld: bool): (Projection, nat) {
    var (q, text) :=
      if !textHeld && id in p.details && DetailSize(p.details[id]) > 0
      then SetDetail(if id in p.users then p.(users := p.users[id := None]) else p, id, ReleasedDetail)
      else (p, 0);
    var (r, data) := ReleaseMedia(q, id);
    (r, text + data)
  }

  function ReleaseEach(p: Projection, candidates: seq<(string, bool)>, need: nat, freed: nat): (Projection, nat)
    decreases |candidates|
  {
    if candidates == [] || freed >= need then (p, freed)
    else
      var (q, more) := ReleaseItem(p, candidates[0].0, candidates[0].1);
      ReleaseEach(q, candidates[1..], need, freed + more)
  }

  /** `release_detail` */
  function ReleaseDetail(p: Projection, need: nat): (Projection, nat) {
    ReleaseEach(p, Candidates(p.snapshot.items, CurrentTurn(p)), need, 0)
  }
}
