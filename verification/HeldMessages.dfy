/** Which user messages are shown, and when: a replay shows no part of a Routine
    block that is all of a message, and every other message shows its text. */
module HeldMessages {
  import opened Text
  import opened RoutineBlock
  import opened BlockScan
  import opened RoutinePrompt
  import opened RoutineRoundTrip
  import opened DetailText
  import opened UserTexts
  import opened ShownTexts
  import opened Activity
  import opened Projection
  import opened TurnRetention
  import opened ProjectionRuns
  import opened DetailBound
  import opened Timeline
  import opened Streams

  // ----- A message that is all block

  /** The prompt of a launch without an instruction. */
  ghost predicate IsBare(launch: Launch) {
    HasOneMarker(launch) && Trim(launch.instruction) == ""
  }

  lemma BarePrompt(launch: Launch)
    requires IsBare(launch)
    ensures Prompt(launch) == Block(launch) && BeforeBlock(launch) == ""
  {
    hide Block, Trim, HasOneMarker;
  }

  /** Any start of the block strips to nothing, and if it is whole, it is all
      left out. */
  lemma BareStrips(launch: Launch, text: string)
    requires IsBare(launch) && text <= Prompt(launch)
    ensures StripBlock(text, Cut) == ""
    ensures text != "" ==> StripBlock(text, Whole) == "" || StripBlock(text, Whole) == text
  {
    hide StripBlock, Prompt, Trim, Block, BeforeBlock;
    BarePrompt(launch);
    if text == "" {
      EmptyStrips();
    } else {
      assert text == Prompt(launch)[..|text|];
      CutThenStrip(launch, |text|);
      BareWhole(launch, text);
    }
  }

  lemma EmptyStrips()
    ensures StripBlock("", Cut) == "" && StripBlock("", Whole) == ""
  {
  }

  lemma BareWhole(launch: Launch, text: string)
    requires IsBare(launch) && text <= Prompt(launch) && text != ""
    ensures StripBlock(text, Whole) == "" || StripBlock(text, Whole) == text
  {
    hide StripBlock, Prompt, Trim, Block, BeforeBlock, WholeAt, HasOneMarker, TrimEnd;
    BarePrompt(launch);
    if s: nat :| WholeAt(text, s) {
      var start := FirstOf(text, s);
      StripsFirst(text, start);
      FirstIn(text, start);
      BareStart(launch, text, start);
      assert text[..0] == "";
      NothingTrims();
    } else {
      StripsNothing(text);
    }
  }

  lemma NothingTrims()
    ensures TrimEnd("") == ""
  {
  }

  lemma BareStart(launch: Launch, text: string, start: nat)
    requires IsBare(launch) && text <= Prompt(launch) && FirstWhole(text, start)
    ensures start == 0
  {
    hide Prompt, Trim, Block, BeforeBlock, OWNER_MARKER, IsPrintable, Contains, BlockEnd, At;
    BarePrompt(launch);
    FirstIn(text, start);
    assert Prompt(launch) == text + Prompt(launch)[|text|..];
    MatchFits(text, OWNER_MARKER, start);
    InPrefix(text, Prompt(launch)[|text|..], OWNER_MARKER, start);
    OnlyMarker(launch, start);
  }

  // ----- In a replay

  /** Message `id` is not in the list. */
  predicate IsHidden(p: Projection, id: string) {
    IndexOf(p.snapshot.items, id).None?
  }

  /** Putting a user text that strips to nothing neither shows it nor any part. */
  lemma PutsHidden(p: Projection, id: string, text: string)
    requires p.replay.Some? && (p.held.Some? ==> p.held.value.id == id) && IsHidden(p, id)
    requires StripBlock(text, Cut) == "" && (StripBlock(text, Whole) == "" || StripBlock(text, Whole) == text)
    requires CanShow(None, TextBlock(text))
    ensures IsHidden(PutUserMessage(p, id, None, TextBlock(text), []), id)
    ensures text != "" && StripBlock(text, Whole) == "" ==> PutUserMessage(p, id, None, TextBlock(text), []).held.None?
  {
    hide StripBlock, Upsert, CurrentTurn, BlockSize, UserSize, Enforce, PutItem;
    TextHasBytes(text);
    NotShown(p, id);
    StoresLeaves(p, id, TextBlock(text));
    assert Bounded("", SUMMARY_LIMIT) == "";
  }

  lemma TextHasBytes(text: string)
    ensures text != "" ==> Bytes(text) > 0 && Bytes("") == 0
  {
  }

  lemma StoresLeaves(p: Projection, id: string, block: DetailBlock)
    ensures SetDetail(p.(users := p.users[id := None]), id, Blocks([block], BlockSize(block) + UserSize(None))).0.snapshot == p.snapshot
  {
  }

  lemma PutUserStays(p: Projection, id: string, user: Option<BlockStart>, block: DetailBlock, segments: seq<Segment>)
    requires CanShow(user, block) && (p.held.Some? ==> p.held.value.id == id)
    ensures var q := PutUserMessage(p, id, user, block, segments);
            && q.replay == p.replay && q.retention == p.retention && q.snapshot.turn == p.snapshot.turn
            && (q.held.Some? ==> q.held.value.id == id)
  {
    hide PutUserMessage, Upsert, TextItem, BlockSize, UserSize, Shown, ShowingOf, StripBlock, Stored;
    NotShown(p, id);
    PutUserIs(p, id, user, block, segments);
    StoredParts(p, id, user, block);
    var item := TextItem(p, id, UserMessage(segments), Shown(user, block).0);
    TextItemIsFor(p, id, UserMessage(segments), Shown(user, block).0);
    UpsertParts(Stored(p, id, user, block), item);
    NothingHeldAfter(Stored(p, id, user, block), item);
  }

  /** What a replay keeps of a message that is not shown. */
  predicate StaysHidden(p: Projection, id: string) {
    IsHidden(p, id) && p.replay.Some? && (p.held.Some? ==> p.held.value.id == id)
  }

  /** The next chunk of such a message. */
  lemma HiddenGoesOn(p: Projection, id: string, launch: Launch, texts: seq<string>, chunk: Chunk)
    requires IsBare(launch) && StaysHidden(p, id) && HoldsText(p, User, id, texts) && chunk.segments == []
    requires Addressed(p, User, NameOf(id, chunk.named)).1 == id && !Panics(p, SentChunk(User, id, chunk))
    requires Joined(texts) + chunk.text <= Prompt(launch) && Bytes(Prompt(launch)) <= p.retention.itemDetail
    ensures var q := Step(p, SentChunk(User, id, chunk));
            && StaysHidden(q, id) && q.retention == p.retention
            && (Joined(texts) + chunk.text == Prompt(launch) ==> q.held.None?)
  {
    hide Addressed, KnownText, UserOf, Prompt, StripBlock, PutUserMessage, IsBare, Bytes, Extend, NameOf;
    BareIsAll(launch);
    var name := NameOf(id, chunk.named);
    var q := Addressed(p, User, name).0;
    var text := Joined(texts) + chunk.text;
    AddressedTo(p, User, name, id);
    AddressedReplays(p, name);
    PrefixIsShorter(Prompt(launch), text);
    BytesConcat(Joined(texts), chunk.text);
    WithinIsText(texts, p.retention.itemDetail);
    WithinExtends(Joined(texts), chunk.text, p.retention.itemDetail);
    BareStrips(launch, text);
    if text == "" { EmptyStrips(); }
    var r := q.(users := q.users - {id});
    PutsHidden(r, id, text);
    PutUserStays(r, id, None, TextBlock(text), []);
  }

  lemma BareIsAll(launch: Launch)
    requires IsBare(launch)
    ensures StripBlock(Prompt(launch), Whole) == "" && Prompt(launch) != ""
  {
    hide Prompt, StripBlock, Trim, IsPrintable, HoldsNoMarker, Contains;
    PrintThenStrip(launch);
    PromptParts(launch);
  }

  lemma WithinExtends(text: string, more: string, limit: nat)
    requires Bytes(text + more) <= limit
    ensures Extend(None, TextBlock(text), more, limit) == (None, TextBlock(text + more)) && CanShow(None, TextBlock(text + more))
  {
  }

  lemma AddressedReplays(p: Projection, name: Option<string>)
    requires p.replay.Some?
    ensures Addressed(p, User, name).0.replay.Some?
  {
    hide Decimal, ReplayName, CurrentTurn;
  }

  /** The chunks of a prompt that is all block, up to any of them, show nothing
      of it in a replay. */
  lemma {:induction false} BareStaysHidden(p: Projection, id: string, launch: Launch, chunks: seq<Chunk>)
    requires chunks != [] && Starts(p, User, id, chunks[0].named) && p.replay.Some? && p.held.None? && IsBare(launch)
    requires Joined(TextsOf(chunks)) <= Prompt(launch) && Bytes(Prompt(launch)) <= p.retention.itemDetail
    requires forall c :: c in chunks ==> c.segments == []
    ensures var q := Run(p, Sent(User, id, chunks));
            && q.Some? && StaysHidden(q.value, id) && q.value.retention == p.retention
            && (Joined(TextsOf(chunks)) == Prompt(launch) ==> q.value.held.None?)
  {
    hide Starts, StreamsOn, Step, Panics, SentChunk, Goes, IsBare, Prompt, HoldsText, StaysHidden, NameOf, Bytes, Addressed, Continues;
    var n := |chunks| - 1;
    var last := chunks[n];
    var action := SentChunk(User, id, last);
    MessageStreams(p, User, id, chunks);
    assert last in chunks && TextsOf(chunks) == TextsOf(chunks[..n]) + [last.text];
    JoinedMore(TextsOf(chunks[..n]), last.text);
    if n == 0 {
      assert chunks[..0] == [] && TextsOf([]) == [];
      StartsHidden(p, id, last.named);
      StartsAtId(p, User, id, last.named);
      FirstChunk(p, User, id, last);
      GoesNoPanic(p, User, id, [], last);
      HiddenGoesOn(p, id, launch, [], last);
      RunOnce(p, action);
      assert Sent(User, id, chunks) == [action];
    } else {
      assert forall c :: c in chunks[..n] ==> c in chunks;
      BareStaysHidden(p, id, launch, chunks[..n]);
      var q := Run(p, Sent(User, id, chunks[..n])).value;
      var texts := TextsOf(chunks[..n]);
      MessageStreams(p, User, id, chunks[..n]);
      NextChunk(q, User, id, texts, last);
      GoesNoPanic(q, User, id, texts, last);
      StreamsHolds(q, id, texts);
      OpenReaches(q, User, id, last.named);
      HiddenGoesOn(q, id, launch, texts, last);
      RunOnceMore(p, Sent(User, id, chunks[..n]), action);
    }
  }

  lemma JoinedMore(texts: seq<string>, more: string)
    ensures Joined(texts + [more]) == Joined(texts) + more
  {
    assert (texts + [more])[..|texts|] == texts;
  }

  lemma StartsHidden(p: Projection, id: string, named: bool)
    requires Starts(p, User, id, named) && p.replay.Some? && p.held.None?
    ensures StaysHidden(p, id) && HoldsText(p, User, id, [])
  {
    hide Ordered, CurrentTurn, Addressed;
    NothingHeldYet(p, User, id);
  }

  lemma StreamsHolds(p: Projection, id: string, texts: seq<string>)
    requires StreamsOn(p, User, id, texts)
    ensures HoldsText(p, User, id, texts) && p.open == Some((User, id))
  {
    hide Ordered, CurrentTurn, Spared, HoldsText, ShowsUser;
  }

  /** And once it is complete, nothing is left to show: not with the next item,
      nor at the end of the replay. */
  lemma BareIsNeverShown(p: Projection, id: string, launch: Launch, chunks: seq<Chunk>)
    requires chunks != [] && Starts(p, User, id, chunks[0].named) && p.replay.Some? && p.held.None? && IsBare(launch)
    requires Joined(TextsOf(chunks)) == Prompt(launch) && Bytes(Prompt(launch)) <= p.retention.itemDetail
    requires forall c :: c in chunks ==> c.segments == []
    ensures var q := Run(p, Sent(User, id, chunks));
            q.Some? && IsHidden(q.value, id) && q.value.held.None? && IsHidden(EndReplay(q.value), id)
  {
    hide *;
    BareStaysHidden(p, id, launch, chunks);
    HiddenEnds(Run(p, Sent(User, id, chunks)).value, id);
  }

  lemma HiddenEnds(p: Projection, id: string)
    requires StaysHidden(p, id) && p.held.None?
    ensures IsHidden(p, id) && IsHidden(EndReplay(p), id)
  {
  }

  // ----- Every other message

  /** A text without the character that tags start with is no start of a block. */
  lemma PlainStrips(text: string)
    requires '<' !in text
    ensures StripBlock(text, Cut) == text && StripBlock(text, Whole) == text
  {
    hide OWNER_MARKER, BlockEnd, BlockStarts;
    var cut, whole := BlockStarts(text, true), BlockStarts(text, false);
    if cut != [] { StartsTag(text, true, cut[0]); }
    if whole != [] { StartsTag(text, false, whole[0]); }
  }

  lemma StartsTag(text: string, cut: bool, s: nat)
    requires s in BlockStarts(text, cut)
    ensures s < |text| && text[s] == '<'
  {
    hide OWNER_MARKER, BlockStarts, CutMarker, At;
    OwnerTag();
    BlockStartsIncrease(text, cut);
    if At(text, OWNER_MARKER, s) {
      OccurrenceStarts(text, OWNER_MARKER, s);
    } else {
      assert text[s..][0] == OWNER_MARKER[0];
    }
  }

  /** A user message put is in the list when it shows segments, or its text is
      more than the start of a block: outside a replay, when anything of it is
      shown; in one, also when it holds no tag at all. */
  lemma PutUserIsShown(p: Projection, id: string, user: Option<BlockStart>, block: DetailBlock, segments: seq<Segment>)
    requires Spared(p, id) && CurrentTurn(p).Some? && CanShow(user, block)
    requires var (text, removed) := Shown(user, block);
             || segments != []
             || (p.replay.None? && (removed == 0 || Bounded(HeadText(text), SUMMARY_LIMIT) != ""))
             || (block.TextBlock? && block.text != "" && '<' !in block.text)
    ensures var q := PutUserMessage(p, id, user, block, segments);
            exists item :: item in q.snapshot.items && item.kind == UserMessage(segments)
                           && IsTextItem(item, id, CurrentTurn(p), Shown(user, block).0)
  {
    hide PutUserMessage, ShowHeld, Stored, Upsert, TextItem, IsTextItem, Shown, CurrentTurn, IsOutside, Spared;
    hide BlockSize, UserSize, Bytes, StripBlock;
    var q, s := ShowHeld(p, Some(id)), Stored(p, id, user, block);
    var (text, removed) := Shown(user, block);
    var item := TextItem(q, id, UserMessage(segments), text);
    StoredSpares(p, id, user, block);
    PutUserIs(p, id, user, block, segments);
    TextItemIsRight(q, id, UserMessage(segments), text);
    TextItemIsFor(q, id, UserMessage(segments), text);
    if block.TextBlock? && '<' !in block.text { PlainShown(user, block); }
    ItemSummary(item, id, CurrentTurn(q), text);
    UpsertShows(s, item);
  }

  lemma ItemSummary(item: ActivityItem, id: string, turn: Option<string>, text: DetailBlock)
    requires IsTextItem(item, id, turn, text)
    ensures item.id == id && item.summary == Bounded(HeadText(text), SUMMARY_LIMIT)
  {
    hide Bytes;
  }

  lemma PlainShown(user: Option<BlockStart>, block: DetailBlock)
    requires CanShow(user, block) && block.TextBlock? && '<' !in block.text
    ensures Shown(user, block) == (block, 0) && StripBlock(block.text, Cut) == block.text
  {
    hide StripBlock, Bytes;
    PlainStrips(block.text);
  }

  /** A turn begun with the prompt of a Routine shows its instruction, and a
      lookup answers that. */
  lemma PromptBegins(p: Projection, turnId: string, launch: Launch, segments: seq<Segment>)
    requires !TurnActive(p) && p.replay.None? && IndexOf(p.snapshot.items, "user:" + turnId).None?
    requires BlockEnd(Block(launch)) == Some(Whole) && Bytes(Prompt(launch)) <= p.retention.itemDetail
    requires Trim(launch.instruction) != ""
    ensures var q, id := BeginTurn(p, turnId, Prompt(launch), segments), "user:" + turnId;
            && (exists item :: item in q.snapshot.items && item.kind == UserMessage(segments)
                               && IsTextItem(item, id, Some(turnId), TextBlock(Trim(launch.instruction))))
            && !LookupMisfits(q, id) && LookUp(q, id) == Available([TextBlock(Trim(launch.instruction))])
  {
    hide Prompt, Block, BlockEnd, Trim, Bytes, Shown, IsTextItem, CanShow, Extend, PutUserMessage, Spared, CurrentTurn, StatusOf;
    hide KnownText, UserOf, ShowsUser, BlockSize, UserSize, LookupMisfits, LookUp, HeadText;
    var id, limit, text := "user:" + turnId, p.retention.itemDetail, Prompt(launch);
    var r := SetTurn(p.(open := None), Some(turnId), InTurn, None);
    var shown := TextBlock(Trim(launch.instruction));
    OneText(text);
    PromptWithin(launch, [text], limit);
    WithinIsText([text], limit);
    TurnSet(p.(open := None), turnId);
    NewIsSpared(r, id);
    WithinExtends("", text, limit);
    assert "" + text == text;
    HasSummary(Trim(launch.instruction));
    HeadOf(Trim(launch.instruction));
    PutUserIsShown(r, id, None, TextBlock(text), segments);
    PutUserShows(r, id, None, TextBlock(text), segments);
    OneShown(BeginTurn(p, turnId, text, segments), id);
  }

  lemma HeadOf(text: string)
    ensures HeadText(TextBlock(text)) == text
  {
  }

  lemma OneText(text: string)
    ensures Joined([text]) == text
  {
    assert [text][..0] == [];
  }

  lemma HasSummary(text: string)
    requires text != ""
    ensures Bounded(text, SUMMARY_LIMIT) != ""
  {
    hide Bytes;
    assert text[..1][..0] == "";
    if Bounded(text, SUMMARY_LIMIT) == "" {
      BoundedIsLongest(text, SUMMARY_LIMIT, 1);
      WidthBetween(text, 0);
      NoBytes(text);
    }
  }

  lemma NoBytes(text: string)
    ensures Bytes(text[..0]) == 0
  {
    assert text[..0] == "";
  }
}
