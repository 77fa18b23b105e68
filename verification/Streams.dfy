/** A message streamed into the current turn holds what was sent of it, in
    whatever chunks, and its item shows that. `projection.rs`. */
module Streams {
  import opened Text
  import opened DetailText
  import opened UserTexts
  import opened Activity
  import opened Projection
  import opened TurnRetention
  import opened ProjectionRuns
  import opened DetailBound
  import opened Timeline

  // ----- Streamed messages

  /** A chunk of a message: whether it names the message, its text, the segments
      its item then shows, and its media. */
  datatype Chunk = Chunk(named: bool, text: string, segments: seq<Segment>, parts: seq<MediaPart>)

  function TextsOf(chunks: seq<Chunk>): (texts: seq<string>)
    ensures |texts| == |chunks|
  {
    if chunks == [] then [] else TextsOf(chunks[..|chunks| - 1]) + [chunks[|chunks| - 1].text]
  }

  /** The agent sends `chunk` of message `id`. */
  function SentChunk(role: Role, id: string, chunk: Chunk): Action {
    Message(role, NameOf(id, chunk.named), chunk.text, chunk.segments, chunk.parts)
  }

  function NameOf(id: string, named: bool): Option<string> {
    if named then Some(id) else None
  }

  /** The agent sends the chunks of message `id`. */
  function Sent(role: Role, id: string, chunks: seq<Chunk>): seq<Action> {
    if chunks == [] then []
    else Sent(role, id, chunks[..|chunks| - 1]) + [SentChunk(role, id, chunks[|chunks| - 1])]
  }

  /** The text of an agent message is held whole, that of a thought within the
      bound. */
  function LimitOf(p: Projection, role: Role): nat {
    if role == Agent then NO_LIMIT else p.retention.itemDetail
  }

  /** `block` alone is held of item `id`. */
  predicate HoldsOnly(p: Projection, id: string, block: DetailBlock) {
    id in p.details && p.details[id].Blocks? && p.details[id].blocks == [block]
  }

  /** What is held of message `id` is what its chunks leave. */
  ghost predicate HoldsText(p: Projection, role: Role, id: string, texts: seq<string>) {
    if role == User then
      var (user, block) := ExtendEach(texts, p.retention.itemDetail);
      && UserOf(p, id) == user && KnownText(p, id) == Some(block)
      && (texts != [] ==> id in p.users && HoldsOnly(p, id, block))
    else
      var block := ExtendAll(texts, LimitOf(p, role));
      && id !in p.users && KnownText(p, id) == Some(block)
      && (texts != [] ==> HoldsOnly(p, id, block))
  }

  predicate IsOfRole(kind: ItemKind, role: Role) {
    match role
    case User => kind.UserMessage?
    case Agent => kind.AgentMessage?
    case Thought => kind.Reasoning?
  }

  /** The item of message `id` shows `text`. */
  ghost predicate ShowsText(p: Projection, role: Role, id: string, text: DetailBlock) {
    exists item :: item in p.snapshot.items && IsTextItem(item, id, CurrentTurn(p), text) && IsOfRole(item.kind, role)
  }

  /** A user message shows what `Shown` tells, unless it is held back as the
      start of a block in a replay, or has nothing but a block to show. */
  ghost predicate ShowsUser(p: Projection, id: string, texts: seq<string>) {
    var (user, block) := ExtendEach(texts, p.retention.itemDetail);
    CanShow(user, block) &&
    var (text, removed) := Shown(user, block);
    || ShowsText(p, User, id, text)
    || (p.replay.Some? && p.held.Some? && IsTextItem(p.held.value, id, CurrentTurn(p), text) && p.held.value.kind.UserMessage?)
    || (removed > 0 && Bounded(HeadText(text), SUMMARY_LIMIT) == "")
  }

  /** Message `id` streams into the current turn, and may go on. */
  ghost predicate StreamsOn(p: Projection, role: Role, id: string, texts: seq<string>) {
    && Ordered(p) && CurrentTurn(p).Some? && Spared(p, id) && HoldsText(p, role, id, texts)
    && p.open == Some((role, id))
    && if role == User then ShowsUser(p, id, texts)
       else p.held.None? && ShowsText(p, role, id, ExtendAll(texts, LimitOf(p, role)))
  }

  lemma ExtendAllIsText(texts: seq<string>, limit: nat)
    ensures ExtendAll(texts, limit).TextBlock? || ExtendAll(texts, limit).Excerpt?
  {
    hide Bytes;
    StreamingIsExcerpt(texts, limit);
  }

  lemma ExtendEachIsText(texts: seq<string>, limit: nat)
    ensures ExtendEach(texts, limit).1.TextBlock? || ExtendEach(texts, limit).1.Excerpt?
    ensures HeadHolds(ExtendEach(texts, limit).0, ExtendEach(texts, limit).1)
    ensures CanShow(ExtendEach(texts, limit).0, ExtendEach(texts, limit).1)
  {
    hide Extend, ExtendEach, Bytes, StartsAt;
    var (user, block) := ExtendEach(texts, limit);
    ExtendEachTracks(texts, limit);
    TracksIsText(user, block, Joined(texts), limit);
    ShownSplits(user, block, Joined(texts), limit);
  }

  lemma TracksIsText(user: Option<BlockStart>, block: DetailBlock, text: string, limit: nat)
    requires Tracks(user, block, text, limit)
    ensures block.TextBlock? || block.Excerpt?
  {
    hide Bytes, StartsAt, Describes;
  }

  lemma KnownIs(p: Projection, id: string, block: DetailBlock, size: nat)
    requires id in p.details && p.details[id] == Blocks([block], size) && (block.TextBlock? || block.Excerpt?)
    ensures KnownText(p, id) == Some(block)
  {
  }

  // ----- Agent messages and thoughts

  lemma MediaSpares(p: Projection, id: string, parts: seq<MediaPart>, offset: nat)
    requires Spared(p, id)
    ensures var q := ExtendMedia(p, id, parts, offset).0;
            && Spared(q, id) && CurrentTurn(q) == CurrentTurn(p) && q.retention == p.retention && q.users == p.users
            && q.held == p.held && q.open == p.open
  {
    hide IsOutside, DataSize, HoldAll, NewSegments, MediaOf;
  }

  lemma PutChunk(p: Projection, role: Role, id: string, kind: ItemKind, block: DetailBlock)
    requires Spared(p, id) && CurrentTurn(p).Some? && id !in p.users && (p.held.Some? ==> p.held.value.id != id)
    requires (block.TextBlock? || block.Excerpt?) && IsOfRole(kind, role) && p.open == Some((role, id))
    ensures var q := PutTextBlock(p, id, kind, block);
            && ShowsText(q, role, id, block) && KnownText(q, id) == Some(block) && id !in q.users && HoldsOnly(q, id, block)
            && Spared(q, id) && CurrentTurn(q) == CurrentTurn(p) && q.retention == p.retention && q.held.None?
            && q.open == p.open
  {
    hide PutTextBlock, IsTextItem, CurrentTurn, Spared, BlockSize, IsOfRole;
    var item := PutTextShows(p, id, kind, block);
    KnownIs(PutTextBlock(p, id, kind, block), id, block, BlockSize(block));
  }

  /** Appending a chunk to an agent message or a thought. */
  lemma AppendShows(p: Projection, role: Role, id: string, chunk: Chunk, known: DetailBlock)
    requires role != User && id !in p.users && KnownText(p, id) == Some(known) && p.open == Some((role, id))
    requires Spared(p, id) && CurrentTurn(p).Some? && Apart(p, id)
    requires var next := ExtendText(known, chunk.text, LimitOf(p, role)); next.TextBlock? || next.Excerpt?
    ensures var q, next := AppendTo(p, role, id, chunk.text, chunk.segments, chunk.parts),
                           ExtendText(known, chunk.text, LimitOf(p, role));
            && ShowsText(q, role, id, next) && KnownText(q, id) == Some(next) && id !in q.users && HoldsOnly(q, id, next)
            && Spared(q, id) && CurrentTurn(q) == CurrentTurn(p) && q.retention == p.retention && q.held.None?
            && q.open == p.open
  {
    hide PutTextBlock, ExtendMedia, CurrentTurn, Spared, KnownText, ExtendText, ShowsText, Extend, PutUserMessage;
    match role
    case Agent =>
      MediaSpares(p, id, chunk.parts, PlaceAfter(known, chunk.text));
      var (q, media) := ExtendMedia(p, id, chunk.parts, PlaceAfter(known, chunk.text));
      PutChunk(q, role, id, AgentMessage(media), ExtendText(known, chunk.text, NO_LIMIT));
    case Thought =>
      PutChunk(p, role, id, Reasoning, ExtendText(known, chunk.text, p.retention.itemDetail));
  }

  lemma LastText(texts: seq<string>, more: string, limit: nat)
    ensures ExtendAll(texts + [more], limit) == ExtendText(ExtendAll(texts, limit), more, limit)
    ensures ExtendEach(texts + [more], limit)
            == Extend(ExtendEach(texts, limit).0, ExtendEach(texts, limit).1, more, limit)
  {
    hide Extend, ExtendText;
    assert (texts + [more])[..|texts|] == texts;
  }

  /** Where a chunk is put that reaches message `id`. */
  lemma AddressedTo(p: Projection, role: Role, name: Option<string>, id: string)
    requires Addressed(p, role, name).1 == id
    ensures var q := Addressed(p, role, name).0;
            && q.open == Some((role, id)) && q.users == p.users && q.details == p.details && q.snapshot == p.snapshot
            && q.retention == p.retention && q.held == p.held && UserOf(q, id) == UserOf(p, id) && KnownText(q, id) == KnownText(p, id)
            && (role != User ==> CurrentTurn(q) == CurrentTurn(p) && MessageId(p, role, name) == id)
            && (role == User && (p.replay.None? || Continues(p, name)) ==> CurrentTurn(q) == CurrentTurn(p))
            && (role == User && p.replay.Some? && !Continues(p, name) && (TurnActive(p) ==> p.snapshot.turn.turnId.Some?) ==>
                  CurrentTurn(q).Some?)
  {
    hide ReplayName, Decimal, Continues;
  }

  lemma SameKnows(p: Projection, q: Projection, id: string)
    requires q.snapshot == p.snapshot && CurrentTurn(q) == CurrentTurn(p) && q.held == p.held
    ensures (Spared(p, id) ==> Spared(q, id)) && (Apart(p, id) ==> Apart(q, id))
  {
    hide IsOutside, CurrentTurn;
  }

  /** The next chunk of a message that holds `texts` streams on. */
  ghost predicate Goes(p: Projection, role: Role, id: string, texts: seq<string>, chunk: Chunk) {
    var action := SentChunk(role, id, chunk);
    !Panics(p, action) && StreamsOn(Step(p, action), role, id, texts + [chunk.text])
  }

  lemma GoesNoPanic(p: Projection, role: Role, id: string, texts: seq<string>, chunk: Chunk)
    requires Goes(p, role, id, texts, chunk)
    ensures !Panics(p, SentChunk(role, id, chunk))
  {
    hide StreamsOn, Panics, SentChunk, Step;
  }

  lemma AgentNeverPanics(p: Projection, action: Action)
    requires action.Message? && action.role != User
    ensures !Panics(p, action)
  {
    hide Addressed;
  }

  /** A chunk of an agent message or thought goes on with what is held. */
  lemma AgentChunk(p: Projection, role: Role, id: string, texts: seq<string>, chunk: Chunk)
    requires role != User && Ordered(p) && CurrentTurn(p).Some? && Spared(p, id) && Settled(p, id)
    requires HoldsText(p, role, id, texts) && Addressed(p, role, NameOf(id, chunk.named)).1 == id
    ensures Goes(p, role, id, texts, chunk)
  {
    hide Ordered, CurrentTurn, Spared, KnownText, ExtendText, ExtendAll, ShowsText, AppendTo, Addressed, UserOf;
    hide Settled, Apart, MessageId, Misfits, NameOf;
    var action := SentChunk(role, id, chunk);
    var name := NameOf(id, chunk.named);
    var q := Addressed(p, role, name).0;
    var known := ExtendAll(texts, LimitOf(p, role));
    AddressedTo(p, role, name, id);
    AgentNeverPanics(p, action);
    StepKeeps(p, action);
    AddressedInOrder(p, role, name);
    SettledIsApart(p, id);
    SameKnows(p, q, id);
    LastText(texts, chunk.text, LimitOf(p, role));
    ExtendAllIsText(texts + [chunk.text], LimitOf(p, role));
    AppendShows(q, role, id, chunk, known);
  }

  lemma SettledIsApart(p: Projection, id: string)
    requires Settled(p, id)
    ensures Apart(p, id)
  {
  }

  lemma StreamsSettled(p: Projection, role: Role, id: string, texts: seq<string>)
    requires StreamsOn(p, role, id, texts) && role != User
    ensures Settled(p, id)
  {
    hide Ordered, CurrentTurn, Spared, KnownText, ExtendAll, ShowsText;
  }

  // ----- User messages

  lemma StoredSpares(p: Projection, id: string, user: Option<BlockStart>, block: DetailBlock)
    requires Spared(p, id)
    ensures var q, s := ShowHeld(p, Some(id)), Stored(p, id, user, block);
            && Spared(q, id) && Spared(s, id) && CurrentTurn(q) == CurrentTurn(s) == CurrentTurn(p)
            && s.retention == p.retention && s.replay == p.replay && q.replay == p.replay && s.held.None?
            && s.snapshot == q.snapshot
            && id in s.users && s.users[id] == user
            && id in s.details && s.details[id] == Blocks([block], BlockSize(block) + UserSize(user))
            && (p.open.Some? && p.open.value.1 == id ==> s.open == p.open)
  {
    hide ShowHeld, CurrentTurn, IsOutside, BlockSize, UserSize, Spared, Untouched;
    var q := ShowHeld(p, Some(id));
    ShowHeldSpares(p, id);
    StillSpared(p, q, id);
    var s := Stored(p, id, user, block);
    StoredParts(p, id, user, block);
    SameCurrentTurn(q, s);
    SameItemsSpared(q, s, id);
  }

  lemma StoredParts(p: Projection, id: string, user: Option<BlockStart>, block: DetailBlock)
    ensures var q, s := ShowHeld(p, Some(id)), Stored(p, id, user, block);
            && s.snapshot == q.snapshot && s.replay == q.replay && s.retention == q.retention && s.open == q.open
            && s.held.None? && id in s.users && s.users[id] == user
            && id in s.details && s.details[id] == Blocks([block], BlockSize(block) + UserSize(user))
  {
    hide ShowHeld, BlockSize, UserSize, DetailSize;
  }

  /** A message hidden would show nothing. */
  lemma HiddenIsEmpty(p: Projection, item: ActivityItem, block: DetailBlock, removed: nat)
    requires ShowingOf(p, item, block, removed) == Hide
    ensures removed > 0 && item.summary == ""
  {
  }

  /** What putting a user message leaves held and shown. */
  lemma PutUserShows(p: Projection, id: string, user: Option<BlockStart>, block: DetailBlock, segments: seq<Segment>)
    requires Spared(p, id) && CurrentTurn(p).Some? && CanShow(user, block)
    ensures var q := PutUserMessage(p, id, user, block, segments);
            var (text, removed) := Shown(user, block);
            && id in q.users && q.users[id] == user
            && id in q.details && q.details[id] == Blocks([block], BlockSize(block) + UserSize(user))
            && Spared(q, id) && CurrentTurn(q) == CurrentTurn(p) && q.retention == p.retention && q.replay == p.replay
            && (p.open.Some? && p.open.value.1 == id ==> q.open == p.open)
            && (|| ShowsText(q, User, id, text)
                || (q.replay.Some? && q.held.Some? && IsTextItem(q.held.value, id, CurrentTurn(q), text)
                    && q.held.value.kind.UserMessage?)
                || (removed > 0 && Bounded(HeadText(text), SUMMARY_LIMIT) == ""))
  {
    hide PutUserMessage, ShowHeld, Stored, Upsert, TextItem, IsTextItem, Shown, ShowingOf, CurrentTurn, IsOutside, Spared;
    hide BlockSize, UserSize, Bytes, HeadText;
    var q, s := ShowHeld(p, Some(id)), Stored(p, id, user, block);
    var (text, removed) := Shown(user, block);
    var item := TextItem(q, id, UserMessage(segments), text);
    StoredSpares(p, id, user, block);
    PutUserIs(p, id, user, block, segments);
    TextItemIsRight(q, id, UserMessage(segments), text);
    TextItemIsFor(q, id, UserMessage(segments), text);
    match ShowingOf(q, item, block, removed)
    case HoldBack =>
      HeldBack(q, item, block, removed);
      HeldSame(s, item, id);
    case ShowNow => UpsertShows(s, item);
    case Hide =>
      HiddenIsEmpty(q, item, block, removed);
      EmptySummary(item, id, CurrentTurn(q), text);
  }

  lemma HeldSame(p: Projection, item: ActivityItem, id: string)
    requires Spared(p, id)
    ensures Spared(p.(held := Some(item)), id) && CurrentTurn(p.(held := Some(item))) == CurrentTurn(p)
  {
    hide IsOutside;
  }

  lemma EmptySummary(item: ActivityItem, id: string, turn: Option<string>, text: DetailBlock)
    requires IsTextItem(item, id, turn, text) && item.summary == ""
    ensures Bounded(HeadText(text), SUMMARY_LIMIT) == ""
  {
    hide Bytes;
  }

  lemma UserHolds(p: Projection, id: string, user: Option<BlockStart>, block: DetailBlock, size: nat)
    requires id in p.users && p.users[id] == user && id in p.details && p.details[id] == Blocks([block], size)
    requires block.TextBlock? || block.Excerpt?
    ensures UserOf(p, id) == user && KnownText(p, id) == Some(block) && HoldsOnly(p, id, block)
  {
  }

  lemma ForgottenSpares(p: Projection, id: string)
    requires Spared(p, id)
    ensures var q := p.(users := p.users - {id}); Spared(q, id) && CurrentTurn(q) == CurrentTurn(p)
  {
    hide IsOutside;
  }

  /** Appending a chunk to a user message that streams into the current turn. */
  lemma AppendUserShows(p: Projection, id: string, texts: seq<string>, chunk: Chunk)
    requires Spared(p, id) && CurrentTurn(p).Some? && HoldsText(p, User, id, texts)
    ensures !Misfits(p, User, id, chunk.text)
    ensures var q := AppendTo(p, User, id, chunk.text, chunk.segments, chunk.parts);
            && HoldsText(q, User, id, texts + [chunk.text]) && ShowsUser(q, id, texts + [chunk.text])
            && Spared(q, id) && CurrentTurn(q) == CurrentTurn(p) && q.replay == p.replay
            && (p.open.Some? && p.open.value.1 == id ==> q.open == p.open)
  {
    hide PutUserMessage, Shown, CurrentTurn, IsOutside, Spared, ShowsText, IsTextItem, Extend, ExtendEach, HeadHolds;
    hide KnownText, UserOf, BlockSize, UserSize, Bytes, HeadText, CanShow;
    var limit := p.retention.itemDetail;
    var (user, known) := ExtendEach(texts, limit);
    var (next, block) := ExtendEach(texts + [chunk.text], limit);
    LastText(texts, chunk.text, limit);
    ExtendEachIsText(texts + [chunk.text], limit);
    ExtendEachIsText(texts, limit);
    ForgottenSpares(p, id);
    var r := p.(users := p.users - {id});
    PutUserShows(r, id, next, block, chunk.segments);
    UserHolds(PutUserMessage(r, id, next, block, chunk.segments), id, next, block, BlockSize(block) + UserSize(next));
    AppendUserIs(p, id, chunk, user, known);
  }

  lemma AppendUserIs(p: Projection, id: string, chunk: Chunk, user: Option<BlockStart>, known: DetailBlock)
    requires KnownText(p, id) == Some(known) && UserOf(p, id) == user && HeadHolds(user, known)
    ensures var (next, block) := Extend(user, known, chunk.text, p.retention.itemDetail);
            && CanShow(next, block) && !Misfits(p, User, id, chunk.text)
            && AppendTo(p, User, id, chunk.text, chunk.segments, chunk.parts)
               == PutUserMessage(p.(users := p.users - {id}), id, next, block, chunk.segments)
  {
    hide PutUserMessage, Extend, KnownText, UserOf, HeadHolds, CanShow;
    ExtendHolds(user, known, chunk.text, p.retention.itemDetail);
  }

  /** A chunk of a user message, which a replay may begin a turn with, goes on
      with what is held. */
  lemma UserChunk(p: Projection, id: string, texts: seq<string>, chunk: Chunk)
    requires Ordered(p) && HoldsText(p, User, id, texts) && Addressed(p, User, NameOf(id, chunk.named)).1 == id
    requires var q := Addressed(p, User, NameOf(id, chunk.named)).0; Spared(q, id) && CurrentTurn(q).Some?
    ensures Goes(p, User, id, texts, chunk)
  {
    hide Ordered, CurrentTurn, Spared, KnownText, UserOf, ExtendEach, ShowsUser, AppendTo, Addressed;
    hide MessageId, Misfits, NameOf;
    var action := SentChunk(User, id, chunk);
    var name := NameOf(id, chunk.named);
    var q := Addressed(p, User, name).0;
    AddressedInOrder(p, User, name);
    AddressedTo(p, User, name, id);
    AppendUserShows(q, id, texts, chunk);
    StepKeeps(p, action);
  }

  // ----- Any message

  /** Message `id` is new, and has a turn to stream into: its first chunk names
      it, or names none while no message of its role is open. */
  ghost predicate Starts(p: Projection, role: Role, id: string, named: bool) {
    && Ordered(p) && id !in p.details && id !in p.users && IndexOf(p.snapshot.items, id).None?
    && (p.held.Some? ==> p.held.value.id != id) && (CurrentTurn(p).Some? || (role == User && p.replay.Some?))
    && (if named then p.open != Some((User, id))
        else (p.open.None? || p.open.value.0 != role) && Addressed(p, role, None).1 == id)
  }

  lemma NewIsSpared(p: Projection, id: string)
    requires IndexOf(p.snapshot.items, id).None?
    ensures Spared(p, id)
  {
    hide CurrentTurn, IsOutside;
  }

  lemma NothingHeldYet(p: Projection, role: Role, id: string)
    requires id !in p.details && id !in p.users
    ensures HoldsText(p, role, id, [])
  {
  }

  lemma StartsAtId(p: Projection, role: Role, id: string, named: bool)
    requires Starts(p, role, id, named)
    ensures Addressed(p, role, NameOf(id, named)).1 == id && (role == User ==> !Continues(p, NameOf(id, named)))
  {
    hide Ordered, ReplayName, Decimal, CurrentTurn;
  }

  lemma FirstChunk(p: Projection, role: Role, id: string, chunk: Chunk)
    requires Starts(p, role, id, chunk.named)
    ensures Goes(p, role, id, [], chunk)
  {
    hide Ordered, StreamsOn, Step, Panics, HoldsText, Spared, CurrentTurn, Addressed, NameOf, Continues;
    NothingHeldYet(p, role, id);
    NewIsSpared(p, id);
    ActiveHasId(p);
    StartsAtId(p, role, id, chunk.named);
    AddressedTo(p, role, NameOf(id, chunk.named), id);
    if role == User {
      NewIsSpared(Addressed(p, User, NameOf(id, chunk.named)).0, id);
      UserChunk(p, id, [], chunk);
    } else {
      AgentChunk(p, role, id, [], chunk);
    }
  }

  /** While a message is open, its chunks reach it, named or not. */
  lemma OpenReaches(p: Projection, role: Role, id: string, named: bool)
    requires p.open == Some((role, id))
    ensures Addressed(p, role, NameOf(id, named)).1 == id && (role == User ==> Continues(p, NameOf(id, named)))
  {
    hide ReplayName, Decimal, CurrentTurn;
  }

  lemma NextChunk(p: Projection, role: Role, id: string, texts: seq<string>, chunk: Chunk)
    requires StreamsOn(p, role, id, texts)
    ensures Goes(p, role, id, texts, chunk)
  {
    hide Ordered, Step, Panics, HoldsText, Spared, CurrentTurn, Addressed, ShowsUser, ShowsText, ExtendAll, NameOf, Continues;
    OpenReaches(p, role, id, chunk.named);
    AddressedTo(p, role, NameOf(id, chunk.named), id);
    if role == User {
      SameItemsSpared(p, Addressed(p, User, NameOf(id, chunk.named)).0, id);
      UserChunk(p, id, texts, chunk);
    } else {
      StreamsSettled(p, role, id, texts);
      AgentChunk(p, role, id, texts, chunk);
    }
  }

  /** However a message is cut into chunks, and whichever of them name it, they
      all reach it: what is held of it is what its chunks leave, its item is in
      the current turn and shows it, and the bounds take neither. */
  lemma {:induction false} MessageStreams(p: Projection, role: Role, id: string, chunks: seq<Chunk>)
    requires chunks != [] && Starts(p, role, id, chunks[0].named)
    ensures var q := Run(p, Sent(role, id, chunks));
            q.Some? && StreamsOn(q.value, role, id, TextsOf(chunks))
  {
    hide Starts, StreamsOn, Step, Panics, SentChunk;
    var n := |chunks| - 1;
    var last := chunks[n];
    var action := SentChunk(role, id, last);
    if n == 0 {
      assert chunks[..0] == [] && TextsOf(chunks) == [last.text];
      FirstChunk(p, role, id, last);
      assert [] + [last.text] == [last.text];
      RunOnce(p, action);
      assert Sent(role, id, chunks) == [action];
    } else {
      MessageStreams(p, role, id, chunks[..n]);
      NextChunk(Run(p, Sent(role, id, chunks[..n])).value, role, id, TextsOf(chunks[..n]), last);
      RunOnceMore(p, Sent(role, id, chunks[..n]), action);
    }
  }

  /** A chunk that names no message begins one, under the next id the runtime
      makes, when none of its role is open; and none is open after a tool call,
      a plan, the begin or the end of a turn, or the replay. */
  lemma UnnamedBegins(p: Projection, role: Role)
    requires p.open.None? || p.open.value.0 != role
    ensures var (q, id) := Addressed(p, role, None);
            && id == CurrentTurn(q).UnwrapOr("session") + ":message:" + Decimal(p.nextLocal + 1)
            && q.nextLocal == p.nextLocal + 1 && q.open == Some((role, id))
            && (role == User && p.replay.Some? ==>
                  q.replay == Some(ReplayState(p.replay.value.turns + 1, Some(ReplayName(p.replay.value.turns + 1)))))
            && (role != User || p.replay.None? ==> q.replay == p.replay)
  {
    hide Decimal, ReplayName;
    var scope := CurrentTurn(Addressed(p, role, None).0).UnwrapOr("session");
    assert scope + ":" + "message" + ":" == scope + ":message:";
  }

  /** A chunk that names no message goes on with the open one of its role, in the
      turn that is current: a replay begins no turn for it. */
  lemma UnnamedGoesOn(p: Projection, role: Role, id: string)
    requires p.open == Some((role, id))
    ensures Addressed(p, role, None) == (p, id)
  {
  }

  /** Whatever closes the open message. */
  predicate ClosesOpen(p: Projection, action: Action) {
    match action
    case Tool(_) => true
    case NewPlan(_) => true
    case CompleteReplay => true
    case Begin(_, _, _) => !TurnActive(p)
    case Finish(turnId, _, _) => IsCurrent(p, turnId)
    case _ => false
  }

  lemma UpsertClosed(p: Projection, item: ActivityItem)
    requires p.open.None?
    ensures Upsert(p, item).open.None?
  {
    hide PutItem, Enforce, ShowHeld;
    ShowHeldClosed(p, Some(item.id));
    PutClosed(ShowHeld(p, Some(item.id)), item);
    EnforceClosed(PutItem(ShowHeld(p, Some(item.id)), item));
  }

  lemma PutClosed(p: Projection, item: ActivityItem)
    ensures PutItem(p, item).open == p.open
  {
    hide CompactSize;
  }

  lemma {:induction false} EnforceClosed(p: Projection)
    requires p.open.None?
    ensures Enforce(p).open.None?
    decreases |p.snapshot.items|
  {
    hide SizeOf, DropItems, EvictedHistory, GroupOf, OverBounds, CurrentTurn;
    if OverBounds(p) && FirstOutside(p.snapshot.items, CurrentTurn(p)).Some? {
      var items := p.snapshot.items;
      var item := items[FirstOutside(items, CurrentTurn(p)).value];
      var ids := GroupOf(items, item);
      EvictedItems(p, ids);
      GroupHasItem(items, item);
      WithoutIsShorter(items, ids);
      DroppedKeeps(p.(compactBytes := p.compactBytes - SizeOf(items, ids)), ids);
      EnforceClosed(Evict(p, ids));
    }
  }

  lemma ShowHeldClosed(p: Projection, except: Option<string>)
    requires p.open.None?
    ensures ShowHeld(p, except).open.None?
  {
    hide PutItem, Enforce;
    if p.held.Some? {
      PutClosed(p.(held := None), p.held.value);
      EnforceClosed(PutItem(p.(held := None), p.held.value));
    }
  }

  lemma PutTextClosed(p: Projection, id: string, kind: ItemKind, block: DetailBlock)
    requires p.open.None?
    ensures PutTextBlock(p, id, kind, block).open.None?
  {
    hide TextItem, Upsert, BlockSize, DetailSize;
    UpsertClosed(SetDetail(p, id, Blocks([block], BlockSize(block))).0, TextItem(p, id, kind, block));
  }

  lemma BeginClosed(p: Projection, turnId: string, text: string, segments: seq<Segment>)
    requires !TurnActive(p)
    ensures BeginTurn(p, turnId, text, segments).open.None?
  {
    hide TextItem, Upsert, ShowHeld, BlockSize, UserSize, DetailSize, Shown, ShowingOf, Extend, StatusOf, CanShow;
    var q := SetTurn(p.(open := None), Some(turnId), InTurn, None);
    var (user, block) := Extend(None, TextBlock(""), text, p.retention.itemDetail);
    var id := "user:" + turnId;
    ExtendHolds(None, TextBlock(""), text, p.retention.itemDetail);
    ShowHeldClosed(q, Some(id));
    var r := ShowHeld(q, Some(id));
    var s := SetDetail(r.(users := r.users[id := user]), id, Blocks([block], BlockSize(block) + UserSize(user))).0;
    UpsertClosed(s.(held := None), TextItem(r, id, UserMessage(segments), Shown(user, block).0));
  }

  lemma OpenIsClosed(p: Projection, action: Action)
    requires ClosesOpen(p, action) && !Panics(p, action)
    ensures Step(p, action).open.None?
  {
    hide Upsert, ShowHeld, ToolItem, BoundedBlocks, DetailSize, DataSize, HoldAll, BeginTurn, PutTextBlock, ClosePending, StatusOf;
    hide CurrentTurn, ExcerptOf, OutcomeItem, Decimal;
    match action
    case Tool(update) =>
      var q := ToolMedia(p.(open := None), update);
      var r := match update.blocks case Some(blocks) => StoreDetail(q, update.id, blocks) case None => q;
      UpsertClosed(r, ToolItem(p, update));
    case NewPlan(entries) =>
      var turn := CurrentTurn(p);
      UpsertClosed(p.(open := None), ActivityItem("plan:" + turn.UnwrapOr("session"), turn, Plan(entries), None, "", false));
    case CompleteReplay =>
    case Begin(turnId, text, segments) => BeginClosed(p, turnId, text, segments);
    case Finish(turnId, reason, error) =>
      var q := ClosePending(p, PendingOutcome(reason)).(open := None);
      match error {
        case Some(message) =>
          var (r, id) := NextLocalId(q, turnId, "error");
          PutTextClosed(r, id, ErrorItem, ExcerptOf(message, r.retention.itemDetail));
        case None =>
      }
      UpsertClosed(PutError(q, turnId, error), OutcomeItem(turnId, reason));
  }

  /** A message whose text was released, or refused for the bound, takes no more:
      its chunks change nothing a consumer sees, nor what is held. */
  lemma ReleasedTakesNoMore(p: Projection, role: Role, id: string, chunk: Chunk)
    requires Addressed(p, role, NameOf(id, chunk.named)).1 == id && id in p.details && !p.details[id].Blocks?
    ensures var action := SentChunk(role, id, chunk);
            && !Panics(p, action)
            && var q := Step(p, action);
               q.snapshot == p.snapshot && q.details == p.details && q.media == p.media && q.users == p.users && q.held == p.held
  {
    hide ReplayName, Decimal, CurrentTurn, NameOf, Continues, PutUserMessage, PutTextBlock, Extend, ExtendMedia, Upsert, BeginTurn;
    hide FinishTurn, InterruptTurn, ResolvePending, UpsertTool, ReleaseEach, EndReplay, PutSettingItem, StatusOf, PutGeneric;
  }

  predicate IsListed(items: seq<ActivityItem>, id: string) {
    IndexOf(items, id).Some?
  }

  /** The open message is closed exactly when the bounds take its item. */
  lemma {:induction false} EnforceCloses(p: Projection)
    ensures var q := Enforce(p);
            q.open == if p.open.Some? && IsListed(p.snapshot.items, p.open.value.1) && !IsListed(q.snapshot.items, p.open.value.1)
                      then None else p.open
    ensures forall id :: IsListed(Enforce(p).snapshot.items, id) ==> IsListed(p.snapshot.items, id)
    decreases |p.snapshot.items|
  {
    hide Evict, GroupOf, OverBounds, CurrentTurn, IsListed, IsOutside;
    if OverBounds(p) && FirstOutside(p.snapshot.items, CurrentTurn(p)).Some? {
      var items := p.snapshot.items;
      var item := items[FirstOutside(items, CurrentTurn(p)).value];
      var ids := GroupOf(items, item);
      EvictParts(p, ids);
      GroupHasItem(items, item);
      WithoutIsShorter(items, ids);
      GroupIsListed(items, item);
      EvictCloses(p, ids);
      WithoutLists(items, ids);
      EnforceCloses(Evict(p, ids));
    }
  }

  lemma EvictCloses(p: Projection, ids: seq<string>)
    ensures Evict(p, ids).open == if p.open.Some? && p.open.value.1 in ids then None else p.open
  {
    hide SizeOf, DropItems, EvictedHistory;
    DroppedKeeps(p.(compactBytes := p.compactBytes - SizeOf(p.snapshot.items, ids)), ids);
  }

  lemma WithoutLists(items: seq<ActivityItem>, ids: seq<string>)
    ensures forall id :: IsListed(Without(items, ids), id) <==> IsListed(items, id) && id !in ids
  {
    hide Without;
    forall id ensures IsListed(Without(items, ids), id) <==> IsListed(items, id) && id !in ids {
      if IsListed(Without(items, ids), id) { WithoutHas(items, ids, Without(items, ids)[IndexOf(Without(items, ids), id).value]); }
      if IsListed(items, id) && id !in ids { WithoutHas(items, ids, items[IndexOf(items, id).value]); }
    }
  }

  lemma GroupIsListed(items: seq<ActivityItem>, item: ActivityItem)
    requires item in items
    ensures forall id :: id in GroupOf(items, item) ==> IsListed(items, id)
  {
    match item.turnId
    case Some(turn) => TurnIsListed(items, turn);
    case None =>
  }

  lemma {:induction false} TurnIsListed(items: seq<ActivityItem>, turn: string)
    ensures forall id :: id in IdsOfTurn(items, turn) ==> IsListed(items, id)
  {
    if items != [] { TurnIsListed(items[..|items| - 1], turn); }
  }

  /** So a thought holds the excerpt of its whole text, an agent message all of
      it, and a user message shows its text less a block at its end. */
  lemma StreamedText(p: Projection, role: Role, id: string, texts: seq<string>)
    requires StreamsOn(p, role, id, texts)
    ensures role == Thought ==> KnownText(p, id) == Some(ExcerptOf(Joined(texts), p.retention.itemDetail))
    ensures role == Agent && Bytes(Joined(texts)) <= NO_LIMIT ==> KnownText(p, id) == Some(TextBlock(Joined(texts)))
    ensures role == User ==>
              var (user, block) := ExtendEach(texts, p.retention.itemDetail);
              && UserOf(p, id) == user && KnownText(p, id) == Some(block) && Describes(block, Joined(texts))
              && CanShow(user, block) && ShowsWithout(Shown(user, block).0, Shown(user, block).1, Joined(texts))
              && KeepsEnough(Shown(user, block).0, Joined(texts), p.retention.itemDetail)
  {
    hide Ordered, CurrentTurn, Spared, KnownText, ShowsText, ShowsUser, ExtendAll, ExtendEach, Shown, ShowsWithout, Describes;
    hide UserOf, Bytes, HeadEnd, TailStart, Tracks, KeepsEnough;
    StreamingIsExcerpt(texts, LimitOf(p, role));
    if role == User {
      StreamedMessageShown(texts, p.retention.itemDetail);
    }
  }

  /** And that is what a lookup of the message answers. */
  lemma StreamedLookup(p: Projection, role: Role, id: string, texts: seq<string>)
    requires StreamsOn(p, role, id, texts) && texts != []
    ensures !LookupMisfits(p, id) && LookUp(p, id).Available? && |LookUp(p, id).blocks| == 1
    ensures var shown := LookUp(p, id).blocks[0];
            && (role == Thought ==> shown == ExcerptOf(Joined(texts), p.retention.itemDetail))
            && (role == Agent && Bytes(Joined(texts)) <= NO_LIMIT ==> shown == TextBlock(Joined(texts)))
            && (role == User ==>
                  var (user, block) := ExtendEach(texts, p.retention.itemDetail);
                  CanShow(user, block) && shown == Shown(user, block).0)
  {
    hide Ordered, CurrentTurn, Spared, ShowsText, ShowsUser, ExtendAll, ExtendEach, Shown, ShowsWithout, CanShow, Bytes;
    StreamedText(p, role, id, texts);
    OneShown(p, id);
  }

  lemma OneShown(p: Projection, id: string)
    requires id in p.details && p.details[id].Blocks? && |p.details[id].blocks| == 1
    requires id in p.users ==> CanShow(p.users[id], p.details[id].blocks[0])
    ensures !LookupMisfits(p, id)
    ensures LookUp(p, id) == Available([if id in p.users then Shown(p.users[id], p.details[id].blocks[0]).0
                                        else p.details[id].blocks[0]])
  {
    hide Shown, CanShow;
    var blocks := p.details[id].blocks;
    assert blocks[..0] == [] && blocks == [blocks[0]];
  }

  // ----- The begin of a turn

  /** A turn begun is the current one, and the prompt streams into it as its
      first message. */
  lemma BeginShows(p: Projection, turnId: string, text: string, segments: seq<Segment>)
    requires !TurnActive(p) && IndexOf(p.snapshot.items, "user:" + turnId).None?
    ensures var q, id := BeginTurn(p, turnId, text, segments), "user:" + turnId;
            && q.snapshot.turn.turnId == Some(turnId) && q.snapshot.turn.phase == InTurn && q.snapshot.turn.lastOutcome.None?
            && q.snapshot.turn.status == (match p.snapshot.pending
                                          case Some(pending) => RequiresAction(pending.kind)
                                          case None => Running)
            && HoldsText(q, User, id, [text]) && ShowsUser(q, id, [text]) && Spared(q, id) && CurrentTurn(q) == Some(turnId)
  {
    hide PutUserMessage, Shown, Spared, ShowsText, IsTextItem, Extend, KnownText, UserOf, BlockSize, UserSize, Bytes;
    hide HeadText, CanShow, StatusOf, CurrentTurn;
    var limit, id := p.retention.itemDetail, "user:" + turnId;
    var r := SetTurn(p.(open := None), Some(turnId), InTurn, None);
    TurnSet(p.(open := None), turnId);
    NewIsSpared(r, id);
    LastText([], text, limit);
    assert [] + [text] == [text];
    ExtendEachIsText([text], limit);
    var (user, block) := Extend(None, TextBlock(""), text, limit);
    PutUserShows(r, id, user, block, segments);
    UserHolds(PutUserMessage(r, id, user, block, segments), id, user, block, BlockSize(block) + UserSize(user));
    PutUserTurn(r, id, user, block, segments);
  }

  lemma TurnSet(p: Projection, turnId: string)
    ensures var q := SetTurn(p, Some(turnId), InTurn, None);
            && CurrentTurn(q) == Some(turnId) && q.retention == p.retention && q.snapshot.items == p.snapshot.items
            && q.snapshot.turn.turnId == Some(turnId) && q.snapshot.turn.phase == InTurn && q.snapshot.turn.lastOutcome.None?
            && q.snapshot.turn.status == (match p.snapshot.pending
                                          case Some(pending) => RequiresAction(pending.kind)
                                          case None => Running)
  {
  }

  lemma PutUserTurn(p: Projection, id: string, user: Option<BlockStart>, block: DetailBlock, segments: seq<Segment>)
    requires CanShow(user, block)
    ensures PutUserMessage(p, id, user, block, segments).snapshot.turn == p.snapshot.turn
  {
    hide PutUserMessage, ShowHeld, Stored, Upsert, TextItem, Shown, ShowingOf;
    PutUserIs(p, id, user, block, segments);
    ShownParts(p, Some(id));
    StoredParts(p, id, user, block);
    UpsertParts(Stored(p, id, user, block), TextItem(ShowHeld(p, Some(id)), id, UserMessage(segments), Shown(user, block).0));
  }
}
