/** The media an agent sends with a message, and what a lookup of one answers.
    `projection.rs`. */
module MediaParts {
  import opened Text
  import opened DetailText
  import opened UserTexts
  import opened Activity
  import opened Projection
  import opened Accounting
  import opened TurnRetention
  import opened ProjectionRuns
  import opened DetailBound
  import opened Timeline
  import opened Streams
  import opened ItemContents

  // ----- Part by part

  /** What is held of the data of a part: it, or why it is not. */
  predicate HoldsPart(datum: MediaData, part: MediaPart, limit: nat) {
    match part.data
    case None => datum == NoData
    case Some(bytes) => if bytes <= limit then datum == HeldData(bytes) else datum == TooLargeData
  }

  /** A part, and the text of the message up to the end of the part's chunk. */
  type Placed = (MediaPart, string)

  /** What the item shows of the part numbered `k`, placed after that text. */
  predicate ShowsPart(segment: MediaSegment, placed: Placed, k: nat) {
    var (part, text) := placed;
    && segment.id == Decimal(k) && segment.name == part.name && segment.mimeType == part.mimeType
    && segment.path == part.path && (segment.hasData <==> part.data.Some?)
    && (Bytes(text) <= NO_LIMIT ==> segment.offset == Some(Utf16(text)))
  }

  function PlacedAfter(parts: seq<MediaPart>, text: string): (placed: seq<Placed>)
    ensures |placed| == |parts| && forall k :: 0 <= k < |parts| ==> placed[k] == (parts[k], text)
  {
    seq(|parts|, k requires 0 <= k < |parts| => (parts[k], text))
  }

  lemma {:induction false} HeldAt(parts: seq<MediaPart>, limit: nat)
    ensures |HoldAll(parts, limit)| == |parts|
    ensures forall k :: 0 <= k < |parts| ==> HoldsPart(HoldAll(parts, limit)[k], parts[k], limit)
  {
    if parts != [] {
      var n := |parts| - 1;
      HeldAt(parts[..n], limit);
      forall k | 0 <= k < |parts| ensures HoldsPart(HoldAll(parts, limit)[k], parts[k], limit) {
        if k < n { assert HoldAll(parts, limit)[k] == HoldAll(parts[..n], limit)[k] && parts[..n][k] == parts[k]; }
      }
    }
  }

  lemma {:induction false} SegmentsAt(parts: seq<MediaPart>, from: nat, offset: nat, limit: nat, text: string)
    requires Bytes(text) <= NO_LIMIT ==> offset == Utf16(text)
    ensures |NewSegments(parts, from, offset, limit)| == |parts|
    ensures forall k :: 0 <= k < |parts| ==> ShowsPart(NewSegments(parts, from, offset, limit)[k], (parts[k], text), from + k)
  {
    hide Decimal, Bytes, Utf16;
    if parts != [] {
      var n := |parts| - 1;
      SegmentsAt(parts[..n], from, offset, limit, text);
      var made, before := NewSegments(parts, from, offset, limit), NewSegments(parts[..n], from, offset, limit);
      forall k | 0 <= k < |parts| ensures ShowsPart(made[k], (parts[k], text), from + k) {
        if k < n { assert made[k] == before[k] && parts[..n][k] == parts[k]; }
      }
    }
  }

  /** The item of message `id` shows `parts`, numbered, and their data is held. */
  ghost predicate HoldsMedia(p: Projection, id: string, parts: seq<Placed>) {
    && MediaOf(p, id) == MediaSegmentsOf(p, id) && |MediaOf(p, id)| == |parts|
    && (forall k :: 0 <= k < |parts| ==> ShowsPart(MediaOf(p, id)[k], parts[k], k))
    && (id in p.media <==> parts != [])
    && (parts != [] ==>
          && |p.media[id]| == |parts|
          && forall k :: 0 <= k < |parts| ==> HoldsPart(p.media[id][k], parts[k].0, p.retention.mediaItem))
  }

  function MediaSegmentsOf(p: Projection, id: string): seq<MediaSegment> {
    match IndexOf(p.snapshot.items, id)
    case Some(i) => MediaSegments(p.snapshot.items[i].kind)
    case None => []
  }

  lemma NothingHeldOf(p: Projection, id: string)
    requires IndexOf(p.snapshot.items, id).None? && id !in p.media
    ensures HoldsMedia(p, id, [])
  {
  }

  // ----- A lookup

  lemma {:induction false} DecimalParses(n: nat)
    ensures ParsedIndex(Decimal(n)) == Some(n) && Parsed(Decimal(n)) == Some(n) && Decimal(n) != "" && Decimal(n)[0] != '+'
  {
    if n >= 10 {
      DecimalParses(n / 10);
      var s := Decimal(n);
      assert s[..|s| - 1] == Decimal(n / 10);
      assert DigitValue(Digit(n % 10)) == n % 10;
      assert s[0] == Decimal(n / 10)[0];
    } else {
      assert DigitValue(Digit(n)) == n;
      assert Decimal(n)[..0] == "";
    }
  }

  lemma SegmentFound(segments: seq<MediaSegment>, parts: seq<Placed>, k: nat)
    requires |segments| == |parts| && k < |parts|
    requires forall j :: 0 <= j < |parts| ==> ShowsPart(segments[j], parts[j], j)
    ensures SegmentOf(segments, Decimal(k)) == Some(k)
  {
    hide Decimal, Bytes, Utf16;
    var r := SegmentOf(segments, Decimal(k));
    assert segments[k].id == Decimal(k);
    if r.Some? && r.value != k {
      assert ShowsPart(segments[r.value], parts[r.value], r.value);
      DecimalDiffers(r.value, k);
    }
  }

  /** A lookup of the part numbered `k` answers its data, or that it had none or
      too much. */
  lemma PartIsFound(p: Projection, id: string, parts: seq<Placed>, k: nat)
    requires HoldsMedia(p, id, parts) && k < |parts|
    ensures LookUpMedia(p, id, Decimal(k)) == match parts[k].0.data
                                              case None => MediaUnavailable(NotProvided)
                                              case Some(bytes) =>
                                                if bytes <= p.retention.mediaItem then MediaAvailable(bytes)
                                                else MediaUnavailable(WasTooLarge)
  {
    hide Decimal, ParsedIndex, Bytes, Utf16;
    SegmentFound(MediaOf(p, id), parts, k);
    DecimalParses(k);
    assert ShowsPart(MediaOf(p, id)[k], parts[k], k);
    assert HoldsPart(p.media[id][k], parts[k].0, p.retention.mediaItem);
  }

  /** What a lookup answers of the first segment of its id, of any item: nothing
      if that tells of no data, else what is held under its number. */
  lemma SegmentTells(p: Projection, i: nat, k: nat, n: nat)
    requires i < |p.snapshot.items| && IndexOf(p.snapshot.items, p.snapshot.items[i].id) == Some(i)
    requires k < |MediaSegments(p.snapshot.items[i].kind)|
    requires var segments := MediaSegments(p.snapshot.items[i].kind);
             segments[k].id == Decimal(n) && forall j :: 0 <= j < k ==> segments[j].id != Decimal(n)
    ensures var id := p.snapshot.items[i].id;
            LookUpMedia(p, id, Decimal(n)) ==
              if !MediaSegments(p.snapshot.items[i].kind)[k].hasData || id !in p.media || |p.media[id]| <= n
              then MediaUnavailable(NotProvided)
              else match p.media[id][n]
                   case HeldData(bytes) => MediaAvailable(bytes)
                   case TooLargeData => MediaUnavailable(WasTooLarge)
                   case ReleasedData => MediaUnavailable(WasReleased)
                   case NoData => MediaUnavailable(NotProvided)
  {
    hide Decimal, ParsedIndex;
    DecimalParses(n);
    FirstSegment(MediaSegments(p.snapshot.items[i].kind), k);
  }

  lemma {:induction false} FirstSegment(segments: seq<MediaSegment>, k: nat)
    requires k < |segments| && forall j :: 0 <= j < k ==> segments[j].id != segments[k].id
    ensures SegmentOf(segments, segments[k].id) == Some(k)
  {
    if k > 0 {
      assert forall j :: 0 <= j < k - 1 ==> segments[1..][j] == segments[j + 1];
      FirstSegment(segments[1..], k - 1);
    }
  }

  /** No media are found of an unknown item, nor by an id none of its segments has. */
  lemma NoneTells(p: Projection, id: string, segmentId: string)
    ensures LookUpMedia(p, id, segmentId) == NoSuchMedia <==>
              match IndexOf(p.snapshot.items, id)
              case Some(i) => forall s :: s in MediaSegments(p.snapshot.items[i].kind) ==> s.id != segmentId
              case None => true
  {
    hide ParsedIndex;
  }

  /** An update of a tool call in the current turn leaves the data it brings, in
      place of any before, or what was held. */
  lemma ToolMediaHeld(p: Projection, update: ToolUpdate)
    requires Spared(p, update.id) && CurrentTurn(p).Some?
    ensures var q, id := UpsertTool(p, update), update.id;
            match update.media
            case Some(parts) =>
              && id in q.media && |q.media[id]| == |parts|
              && forall k :: 0 <= k < |parts| ==> HoldsPart(q.media[id][k], parts[k], p.retention.mediaItem)
            case None => (id in q.media <==> id in p.media) && (id in p.media ==> q.media[id] == p.media[id])
  {
    hide Upsert, ToolItem, CurrentTurn, Spared, HoldAll, DataSize, SetDetail, IsOutside, BoundedBlocks, HoldsPart;
    ToolMerges(p, update);
    if update.media.Some? { HeldAt(update.media.value, p.retention.mediaItem); }
    var q := ToolMedia(p.(open := None), update);
    var r := match update.blocks case Some(blocks) => StoreDetail(q, update.id, blocks) case None => q;
    StoreKeepsMedia(q, update);
    SameCurrentTurn(p, r);
    SameItemsSpared(p, r, update.id);
    UpsertShows(r, ToolItem(p, update));
  }

  lemma StoreKeepsMedia(p: Projection, update: ToolUpdate)
    ensures match update.blocks
            case Some(blocks) =>
              var q := StoreDetail(p, update.id, blocks);
              q.media == p.media && q.snapshot == p.snapshot && q.replay == p.replay
            case None => true
  {
    hide BoundedBlocks, DetailSize;
  }

  // ----- Chunk by chunk

  lemma Extended(p: Projection, id: string, parts: seq<Placed>, more: seq<MediaPart>, offset: nat, text: string)
    requires HoldsMedia(p, id, parts) && (Bytes(text) <= NO_LIMIT ==> offset == Utf16(text))
    ensures var (q, media) := ExtendMedia(p, id, more, offset);
            var all := parts + PlacedAfter(more, text);
            && |media| == |all|
            && (forall k :: 0 <= k < |all| ==> ShowsPart(media[k], all[k], k))
            && (id in q.media <==> all != [])
            && (all != [] ==>
                  && |q.media[id]| == |all|
                  && forall k :: 0 <= k < |all| ==> HoldsPart(q.media[id][k], all[k].0, p.retention.mediaItem))
            && q.snapshot == p.snapshot && q.retention == p.retention && q.open == p.open && q.held == p.held
            && q.users == p.users && q.details == p.details && q.replay == p.replay
  {
    hide Decimal, HoldAll, NewSegments, MediaOf, DataSize, HoldsPart, ShowsPart, Bytes, Utf16;
    HeldAt(more, p.retention.mediaItem);
    SegmentsAt(more, |parts|, offset, p.retention.mediaItem, text);
  }

  /** The text known of an agent message tells where its next media stand. */
  lemma PlaceIsEnd(texts: seq<string>, more: string)
    ensures var text := Joined(texts) + more;
            Bytes(text) <= NO_LIMIT ==> PlaceAfter(ExtendAll(texts, NO_LIMIT), more) == Utf16(text)
  {
    hide Bytes, Utf16;
    var text := Joined(texts);
    BytesConcat(text, more);
    Utf16Concat(text, more);
    StreamingIsExcerpt(texts, NO_LIMIT);
  }

  /** An agent message goes on with the media of its chunk. */
  lemma MediaGoesOn(p: Projection, id: string, texts: seq<string>, parts: seq<Placed>, chunk: Chunk)
    requires Ordered(p) && CurrentTurn(p).Some? && Spared(p, id) && Settled(p, id) && HoldsText(p, Agent, id, texts)
    requires Addressed(p, Agent, NameOf(id, chunk.named)).1 == id && HoldsMedia(p, id, parts)
    ensures Goes(p, Agent, id, texts, chunk)
    ensures HoldsMedia(Step(p, SentChunk(Agent, id, chunk)), id, parts + PlacedAfter(chunk.parts, Joined(texts) + chunk.text))
  {
    hide Ordered, CurrentTurn, Spared, KnownText, ExtendText, ExtendAll, ShowsText, AppendTo, Addressed, UserOf, Settled;
    hide Misfits, NameOf, HoldsMedia, StreamsOn, Apart, MessageId;
    var name := NameOf(id, chunk.named);
    var q := Addressed(p, Agent, name).0;
    AgentChunk(p, Agent, id, texts, chunk);
    AddressedTo(p, Agent, name, id);
    AddressedMedia(p, name);
    SameMedia(p, q, id, parts);
    SettledIsApart(p, id);
    SameKnows(p, q, id);
    StreamsOrdered(Step(p, SentChunk(Agent, id, chunk)), Agent, id, texts + [chunk.text]);
    PlaceIsEnd(texts, chunk.text);
    AppendsMedia(q, id, ExtendAll(texts, NO_LIMIT), parts, chunk, Joined(texts) + chunk.text);
  }

  lemma StreamsOrdered(p: Projection, role: Role, id: string, texts: seq<string>)
    requires StreamsOn(p, role, id, texts)
    ensures Ordered(p)
  {
    hide Ordered, CurrentTurn, Spared, HoldsText, ShowsUser, ShowsText;
  }

  lemma AddressedMedia(p: Projection, name: Option<string>)
    ensures Addressed(p, Agent, name).0.media == p.media
  {
    hide Decimal, CurrentTurn, ReplayName;
  }

  lemma SameMedia(p: Projection, q: Projection, id: string, parts: seq<Placed>)
    requires HoldsMedia(p, id, parts) && q.media == p.media && q.snapshot == p.snapshot && q.retention == p.retention
    ensures HoldsMedia(q, id, parts)
  {
    hide HoldsPart, ShowsPart;
  }

  lemma AppendsMedia(p: Projection, id: string, known: DetailBlock, parts: seq<Placed>, chunk: Chunk, text: string)
    requires HoldsMedia(p, id, parts) && KnownText(p, id) == Some(known) && Spared(p, id) && CurrentTurn(p).Some?
    requires !Misfits(p, Agent, id, chunk.text) && (Bytes(text) <= NO_LIMIT ==> PlaceAfter(known, chunk.text) == Utf16(text))
    requires Ordered(AppendTo(p, Agent, id, chunk.text, chunk.segments, chunk.parts))
    ensures HoldsMedia(AppendTo(p, Agent, id, chunk.text, chunk.segments, chunk.parts), id, parts + PlacedAfter(chunk.parts, text))
  {
    hide Ordered, CurrentTurn, Spared, KnownText, ExtendText, ExtendMedia, PutTextBlock, HoldsPart, ShowsPart, HoldsMedia;
    hide BlockSize, IsTextItem, Misfits, Bytes, Utf16, PlaceAfter;
    var offset := PlaceAfter(known, chunk.text);
    Extended(p, id, parts, chunk.parts, offset, text);
    MediaSpares(p, id, chunk.parts, offset);
    var (q, media) := ExtendMedia(p, id, chunk.parts, offset);
    var block := ExtendText(known, chunk.text, NO_LIMIT);
    var item := PutTextShows(q, id, AgentMessage(media), block);
    var r := PutTextBlock(q, id, AgentMessage(media), block);
    ItemIdIs(item, id, CurrentTurn(q), block);
    OrderedIsUnique(r);
    ItemHasMedia(r, item, media, parts + PlacedAfter(chunk.parts, text));
  }

  lemma ItemHasMedia(p: Projection, item: ActivityItem, media: seq<MediaSegment>, parts: seq<Placed>)
    requires UniqueIds(p.snapshot.items) && item in p.snapshot.items && item.kind == AgentMessage(media) && |media| == |parts|
    requires forall k :: 0 <= k < |parts| ==> ShowsPart(media[k], parts[k], k)
    requires item.id in p.media <==> parts != []
    requires parts != [] ==> |p.media[item.id]| == |parts|
                             && forall k :: 0 <= k < |parts| ==> HoldsPart(p.media[item.id][k], parts[k].0, p.retention.mediaItem)
    ensures HoldsMedia(p, item.id, parts)
  {
    hide HoldsPart, ShowsPart, UniqueIds;
    var i :| 0 <= i < |p.snapshot.items| && p.snapshot.items[i] == item;
    IndexIsUnique(p.snapshot.items, i);
  }

  /** The parts of all chunks, each with the text up to the end of its chunk. */
  function PartsOf(chunks: seq<Chunk>): seq<Placed> {
    if chunks == [] then []
    else PartsOf(chunks[..|chunks| - 1]) + PlacedAfter(chunks[|chunks| - 1].parts, Joined(TextsOf(chunks)))
  }

  lemma LastParts(chunks: seq<Chunk>)
    requires chunks != []
    ensures var n := |chunks| - 1;
            PartsOf(chunks) == PartsOf(chunks[..n]) + PlacedAfter(chunks[n].parts, Joined(TextsOf(chunks[..n])) + chunks[n].text)
  {
    var n := |chunks| - 1;
    assert TextsOf(chunks)[..n] == TextsOf(chunks[..n]);
  }

  /** However an agent message and its media are chunked: its item shows every
      part in order, placed at the end of its chunk's text in UTF-16 units, and
      its data is held within the bound. */
  lemma {:induction false} MediaStreams(p: Projection, id: string, chunks: seq<Chunk>)
    requires chunks != [] && Starts(p, Agent, id, chunks[0].named) && id !in p.media
    ensures var q := Run(p, Sent(Agent, id, chunks));
            q.Some? && StreamsOn(q.value, Agent, id, TextsOf(chunks)) && HoldsMedia(q.value, id, PartsOf(chunks))
  {
    hide Starts, StreamsOn, Step, Panics, SentChunk, HoldsMedia, Goes;
    var n := |chunks| - 1;
    var last := chunks[n];
    var action := SentChunk(Agent, id, last);
    MessageStreams(p, Agent, id, chunks);
    LastParts(chunks);
    if n == 0 {
      assert chunks[..0] == [] && PartsOf([]) == [] && TextsOf([]) == [];
      FirstMedia(p, id, last);
      GoesNoPanic(p, Agent, id, [], last);
      RunOnce(p, action);
      assert Sent(Agent, id, chunks) == [action];
    } else {
      MediaStreams(p, id, chunks[..n]);
      var q := Run(p, Sent(Agent, id, chunks[..n])).value;
      NextMedia(q, id, TextsOf(chunks[..n]), PartsOf(chunks[..n]), last);
      GoesNoPanic(q, Agent, id, TextsOf(chunks[..n]), last);
      RunOnceMore(p, Sent(Agent, id, chunks[..n]), action);
    }
  }

  lemma FirstMedia(p: Projection, id: string, chunk: Chunk)
    requires Starts(p, Agent, id, chunk.named) && id !in p.media
    ensures Goes(p, Agent, id, [], chunk)
    ensures HoldsMedia(Step(p, SentChunk(Agent, id, chunk)), id, [] + PlacedAfter(chunk.parts, "" + chunk.text))
  {
    hide Ordered, Step, Panics, HoldsText, Spared, CurrentTurn, Addressed, NameOf, Continues, HoldsMedia, Goes, SentChunk;
    NothingHeldYet(p, Agent, id);
    NewIsSpared(p, id);
    StartsAtId(p, Agent, id, chunk.named);
    NothingHeldOf(p, id);
    MediaGoesOn(p, id, [], [], chunk);
  }

  lemma NextMedia(p: Projection, id: string, texts: seq<string>, parts: seq<Placed>, chunk: Chunk)
    requires StreamsOn(p, Agent, id, texts) && HoldsMedia(p, id, parts)
    ensures Goes(p, Agent, id, texts, chunk)
    ensures HoldsMedia(Step(p, SentChunk(Agent, id, chunk)), id, parts + PlacedAfter(chunk.parts, Joined(texts) + chunk.text))
  {
    hide Ordered, Step, Panics, HoldsText, Spared, CurrentTurn, Addressed, ShowsUser, ShowsText, ExtendAll, NameOf, Continues;
    hide HoldsMedia, Goes, SentChunk;
    OpenReaches(p, Agent, id, chunk.named);
    StreamsSettled(p, Agent, id, texts);
    MediaGoesOn(p, id, texts, parts, chunk);
  }
}
