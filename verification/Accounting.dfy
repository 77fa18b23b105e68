/** The byte accounts of a session: its compact bytes are those of its items,
    its detail bytes those of the detail and media it holds. */
module Accounting {
  import opened Text
  import opened Activity
  import opened Projection

  // ----- Sums over a map

  ghost function Total<V>(m: map<string, V>, size: V -> nat): nat
    decreases |m|
  {
    if m == map[] then 0
    else
      var k :| k in m;
      assert |m - {k}| < |m| by { FewerKeys(m, k); }
      size(m[k]) + Total(m - {k}, size)
  }

  lemma FewerKeys<V>(m: map<string, V>, k: string)
    requires k in m
    ensures |m - {k}| < |m|
  {
    assert (m - {k}).Keys == m.Keys - {k};
    assert |m.Keys - {k}| < |m.Keys|;
  }

  lemma {:induction false} TotalTaken<V>(m: map<string, V>, size: V -> nat, k: string)
    requires k in m
    ensures Total(m, size) == size(m[k]) + Total(m - {k}, size)
    decreases |m|
  {
    var c := TotalPicks(m, size);
    if c != k {
      FewerKeys(m, c);
      TotalTaken(m - {c}, size, k);
      var d := m - {k};
      assert d - {c} == m - {c} - {k};
      FewerKeys(m, k);
      TotalTaken(d, size, c);
    }
  }

  lemma TotalPicks<V>(m: map<string, V>, size: V -> nat) returns (c: string)
    requires m != map[]
    ensures c in m && Total(m, size) == size(m[c]) + Total(m - {c}, size)
  {
    c :| c in m && Total(m, size) == size(m[c]) + Total(m - {c}, size);
  }

  lemma TotalPut<V>(m: map<string, V>, size: V -> nat, k: string, v: V)
    ensures Total(m[k := v], size) == Total(m, size) - (if k in m then size(m[k]) else 0) + size(v)
  {
    TotalTaken(m[k := v], size, k);
    assert m[k := v] - {k} == m - {k};
    if k in m { TotalTaken(m, size, k); } else { assert m - {k} == m; }
  }

  lemma TotalLess<V>(m: map<string, V>, size: V -> nat, k: string)
    ensures Total(m - {k}, size) == Total(m, size) - (if k in m then size(m[k]) else 0)
  {
    if k in m { TotalTaken(m, size, k); } else { assert m - {k} == m; }
  }

  // ----- The accounts

  ghost function DetailTotal(p: Projection): nat {
    Total(p.details, DetailSize) + Total(p.media, DataSize)
  }

  ghost predicate Accounted(p: Projection) {
    p.compactBytes == SumCompact(p.snapshot.items) && p.detailBytes == DetailTotal(p)
  }

  /** No account differs. */
  ghost predicate SameAccounts(p: Projection, q: Projection) {
    && q.compactBytes == p.compactBytes && q.snapshot.items == p.snapshot.items
    && q.details == p.details && q.media == p.media && q.detailBytes == p.detailBytes
  }

  lemma SameAccounted(p: Projection, q: Projection)
    requires Accounted(p) && SameAccounts(p, q)
    ensures Accounted(q)
  {
  }

  // ----- Compact bytes

  lemma SumStep(items: seq<ActivityItem>)
    requires items != []
    ensures SumCompact(items) == SumCompact(items[..|items| - 1]) + CompactSize(items[|items| - 1])
  {
    hide CompactSize;
  }

  lemma {:induction false} SumReplaced(items: seq<ActivityItem>, i: nat, item: ActivityItem)
    requires i < |items|
    ensures SumCompact(items[i := item]) == SumCompact(items) - CompactSize(items[i]) + CompactSize(item)
  {
    hide SumCompact, CompactSize;
    var n := |items| - 1;
    SumStep(items);
    SumStep(items[i := item]);
    if i < n {
      SumReplaced(items[..n], i, item);
      assert items[i := item][..n] == items[..n][i := item];
    } else {
      assert items[i := item][..n] == items[..n];
    }
  }

  lemma SizeOfStep(items: seq<ActivityItem>, ids: seq<string>)
    requires items != []
    ensures var last := items[|items| - 1];
            SizeOf(items, ids) == SizeOf(items[..|items| - 1], ids) + (if last.id in ids then CompactSize(last) else 0)
  {
    hide CompactSize;
  }

  lemma {:induction false} SumWithout(items: seq<ActivityItem>, ids: seq<string>)
    ensures SumCompact(Without(items, ids)) == SumCompact(items) - SizeOf(items, ids)
  {
    hide CompactSize, SumCompact, SizeOf;
    if items == [] {
      NothingSums(ids);
    } else {
      var n := |items| - 1;
      SumWithout(items[..n], ids);
      SumStep(items);
      SizeOfStep(items, ids);
      if items[n].id !in ids {
        var kept := Without(items[..n], ids) + [items[n]];
        SumStep(kept);
        assert kept[..|kept| - 1] == Without(items[..n], ids);
      } else {
        assert Without(items[..n], ids) + [] == Without(items[..n], ids);
      }
    }
  }

  lemma NothingSums(ids: seq<string>)
    ensures SumCompact([]) == 0 && SizeOf([], ids) == 0
  {
  }

  lemma SumWithItem(items: seq<ActivityItem>, item: ActivityItem)
    ensures SumCompact(WithItem(items, item))
            == SumCompact(items) + CompactSize(item)
               - (match IndexOf(items, item.id) case Some(i) => CompactSize(items[i]) case None => 0)
  {
    hide CompactSize, SumCompact;
    match IndexOf(items, item.id)
    case Some(i) => SumReplaced(items, i, item);
    case None =>
      SumStep(items + [item]);
      assert (items + [item])[..|items|] == items;
  }

  lemma PutItemAccounted(p: Projection, item: ActivityItem)
    requires Accounted(p)
    ensures Accounted(PutItem(p, item))
  {
    hide CompactSize, SumCompact, DetailTotal;
    SumWithItem(p.snapshot.items, item);
    PutDetail(p, item);
  }

  lemma PutDetail(p: Projection, item: ActivityItem)
    ensures DetailTotal(PutItem(p, item)) == DetailTotal(p) && PutItem(p, item).detailBytes == p.detailBytes
  {
    hide CompactSize, Total;
  }

  // ----- Detail bytes

  lemma SetDetailAccounted(p: Projection, id: string, detail: Detail)
    requires Accounted(p)
    ensures Accounted(SetDetail(p, id, detail).0)
  {
    hide DetailSize, DataSize, SumCompact, Total;
    TotalPut(p.details, DetailSize, id, detail);
  }

  lemma TakeMediaAccounted(p: Projection, id: string)
    requires Accounted(p)
    ensures Accounted(TakeMedia(p, id).0)
  {
    hide DataSize, SumCompact, Total;
    NoDataSums();
    TotalLess(p.media, DataSize, id);
  }

  lemma NoDataSums()
    ensures DataSize([]) == 0
  {
  }

  lemma PutMediaAccounted(p: Projection, id: string, data: seq<MediaData>)
    requires Accounted(p)
    ensures Accounted(PutMedia(p, id, data))
  {
    hide DataSize, SumCompact, Total;
    TotalPut(p.media, DataSize, id, data);
  }

  lemma {:induction false} ReleasedIsNothing(data: seq<MediaData>)
    ensures DataSize(ReleasedAll(data)) == 0
  {
    if data != [] {
      var n := |data| - 1;
      ReleasedIsNothing(data[..n]);
      assert ReleasedAll(data)[..n] == ReleasedAll(data[..n]);
    }
  }

  lemma ReleaseMediaAccounted(p: Projection, id: string)
    requires Accounted(p)
    ensures Accounted(ReleaseMedia(p, id).0)
    ensures ReleaseMedia(p, id).0.detailBytes == p.detailBytes - ReleaseMedia(p, id).1
  {
    hide DataSize, SumCompact, Total;
    if id in p.media {
      ReleasedIsNothing(p.media[id]);
      TotalPut(p.media, DataSize, id, ReleasedAll(p.media[id]));
    }
  }

  lemma ReleaseItemAccounted(p: Projection, id: string, textHeld: bool)
    requires Accounted(p)
    ensures var (q, freed) := ReleaseItem(p, id, textHeld);
            Accounted(q) && q.detailBytes == p.detailBytes - freed
  {
    hide Accounted, ReleaseMedia, DetailSize;
    var q := if id in p.users then p.(users := p.users[id := None]) else p;
    SameAccounted(p, q);
    SetDetailAccounted(q, id, ReleasedDetail);
    var r := if !textHeld && id in p.details && DetailSize(p.details[id]) > 0 then SetDetail(q, id, ReleasedDetail).0 else p;
    ReleaseMediaAccounted(r, id);
    NothingReleased();
  }

  lemma NothingReleased()
    ensures DetailSize(ReleasedDetail) == 0
  {
  }

  // ----- Eviction

  lemma DropItemTotal(p: Projection, id: string)
    ensures DetailTotal(DropItem(p, id)) - DropItem(p, id).detailBytes == DetailTotal(p) - p.detailBytes
  {
    hide DetailSize, DataSize, Total;
    NoDataSums();
    TotalLess(p.details, DetailSize, id);
    TotalLess(p.media, DataSize, id);
  }

  lemma {:induction false} DropItemsTotal(p: Projection, ids: seq<string>)
    ensures DetailTotal(DropItems(p, ids)) - DropItems(p, ids).detailBytes == DetailTotal(p) - p.detailBytes
  {
    hide DetailTotal, DropItem;
    if ids != [] {
      DropItemsTotal(p, ids[..|ids| - 1]);
      DropItemTotal(DropItems(p, ids[..|ids| - 1]), ids[|ids| - 1]);
    }
  }

  lemma EvictBytes(p: Projection, ids: seq<string>)
    ensures var q, d := Evict(p, ids), DropItems(p.(compactBytes := p.compactBytes - SizeOf(p.snapshot.items, ids)), ids);
            && q.compactBytes == p.compactBytes - SizeOf(p.snapshot.items, ids)
            && q.snapshot.items == Without(p.snapshot.items, ids)
            && q.details == d.details && q.media == d.media && q.detailBytes == d.detailBytes
  {
    hide SizeOf, DropItems, EvictedHistory;
    DroppedKeeps(p.(compactBytes := p.compactBytes - SizeOf(p.snapshot.items, ids)), ids);
  }

  lemma EvictAccounted(p: Projection, ids: seq<string>)
    requires Accounted(p)
    ensures Accounted(Evict(p, ids))
  {
    hide SizeOf, DropItems, SumCompact, Evict, Total;
    EvictBytes(p, ids);
    SumWithout(p.snapshot.items, ids);
    DropItemsTotal(p.(compactBytes := p.compactBytes - SizeOf(p.snapshot.items, ids)), ids);
  }

  // ----- What the size of an item counts

  ghost function JoinedOf<T>(things: seq<T>, text: T -> string): string {
    if things == [] then "" else text(things[0]) + JoinedOf(things[1..], text)
  }

  ghost function MediaText(s: MediaSegment): string {
    s.id + s.name.UnwrapOr("") + s.mimeType.UnwrapOr("") + s.path.UnwrapOr("")
  }

  ghost function SegmentText(s: Segment): string {
    match s
    case TextSegment(text) => text
    case LinkSegment(uri, name) => uri + name
    case ImageSegment(uri, name) => uri.UnwrapOr("") + name.UnwrapOr("")
  }

  ghost function CallText(call: (string, string)): string {
    call.0 + call.1
  }

  ghost function Itself(text: string): string {
    text
  }

  /** All the text an item holds, and how many media and places it names. */
  ghost function ItemText(item: ActivityItem): (string, nat, nat) {
    var shown := item.id + item.turnId.UnwrapOr("") + item.summary;
    match item.kind
    case UserMessage(segments) => (shown + JoinedOf(segments, SegmentText), 0, 0)
    case AgentMessage(media) => (shown + JoinedOf(media, MediaText), |media|, 0)
    case ToolCall(media, locations, calls) =>
      (shown + JoinedOf(media, MediaText) + JoinedOf(locations, Itself) + JoinedOf(calls, CallText), |media|, |locations|)
    case Plan(entries) => (shown + JoinedOf(entries, Itself), 0, 0)
    case Interaction(_, _, _, option, _) => (shown + option.UnwrapOr(""), 0, 0)
    case Generic(what) => (shown + what, 0, 0)
    case _ => (shown, 0, 0)
  }

  ghost function Scaled(each: nat, n: nat): nat {
    each * n
  }

  lemma OneMore(each: nat, n: nat)
    ensures Scaled(each, 0) == 0 && Scaled(each, n + 1) == Scaled(each, n) + each
  {
  }

  lemma {:induction false} SumIsText<T>(things: seq<T>, size: T -> nat, text: T -> string, each: nat)
    requires forall thing :: thing in things ==> size(thing) == Bytes(text(thing)) + each
    ensures SumSizes(things, size) == Bytes(JoinedOf(things, text)) + Scaled(each, |things|)
  {
    hide Bytes, Scaled, SumSizes;
    if things == [] {
      NoBytes();
      NoSizes(size);
      OneMore(each, 0);
    } else {
      var rest := things[1..];
      SumFirst(things, size);
      SumIsText(rest, size, text, each);
      BytesConcat(text(things[0]), JoinedOf(rest, text));
      OneMore(each, |rest|);
    }
  }

  lemma NoSizes<T>(size: T -> nat)
    ensures SumSizes([], size) == 0
  {
  }

  lemma NoBytes()
    ensures Bytes("") == 0
  {
  }

  lemma {:induction false} SumFirst<T>(things: seq<T>, size: T -> nat)
    requires things != []
    ensures SumSizes(things, size) == size(things[0]) + SumSizes(things[1..], size)
  {
    var n := |things| - 1;
    if n > 0 {
      SumFirst(things[..n], size);
      assert things[..n][1..] == things[1..][..n - 1];
    }
  }

  lemma ThingsAreText()
    ensures forall s: MediaSegment :: MediaSize(s) == Bytes(MediaText(s)) + ITEM_OVERHEAD
    ensures forall s: Segment :: SegmentSize(s) == Bytes(SegmentText(s))
    ensures forall call: (string, string) :: CallSize(call) == Bytes(CallText(call))
    ensures forall path: string :: LocationSize(path) == Bytes(Itself(path)) + ITEM_OVERHEAD / 4
    ensures forall text: string :: TextBytes(text) == Bytes(Itself(text))
  {
    hide Bytes;
    NoBytes();
    forall s: MediaSegment ensures MediaSize(s) == Bytes(MediaText(s)) + ITEM_OVERHEAD {
      BytesConcat(s.id, s.name.UnwrapOr(""));
      BytesConcat(s.id + s.name.UnwrapOr(""), s.mimeType.UnwrapOr(""));
      BytesConcat(s.id + s.name.UnwrapOr("") + s.mimeType.UnwrapOr(""), s.path.UnwrapOr(""));
    }
    forall s: Segment ensures SegmentSize(s) == Bytes(SegmentText(s)) {
      match s
      case TextSegment(_) =>
      case LinkSegment(uri, name) => BytesConcat(uri, name);
      case ImageSegment(uri, name) => BytesConcat(uri.UnwrapOr(""), name.UnwrapOr(""));
    }
    forall call: (string, string) ensures CallSize(call) == Bytes(CallText(call)) { BytesConcat(call.0, call.1); }
  }

  /** The size of an item is the bytes of all its text, 64 for itself and each
      of its media and 16 for each place. */
  lemma SizeIsText(item: ActivityItem)
    ensures var (text, media, places) := ItemText(item);
            CompactSize(item) == Bytes(text) + 64 * (1 + media) + 16 * places
  {
    hide Bytes, MediaSize, SegmentSize, CallSize, LocationSize, TextBytes, MediaText, SegmentText, CallText, Itself, SumSizes, JoinedOf;
    ThingsAreText();
    NoBytes();
    var id, turn := item.id, item.turnId.UnwrapOr("");
    var shown := id + turn + item.summary;
    BytesConcat(id, turn);
    BytesConcat(id + turn, item.summary);
    match item.kind
    case UserMessage(segments) =>
      SumIsText(segments, SegmentSize, SegmentText, 0);
      BytesConcat(shown, JoinedOf(segments, SegmentText));
    case AgentMessage(media) =>
      SumIsText(media, MediaSize, MediaText, ITEM_OVERHEAD);
      BytesConcat(shown, JoinedOf(media, MediaText));
    case ToolCall(media, locations, calls) =>
      SumIsText(media, MediaSize, MediaText, ITEM_OVERHEAD);
      SumIsText(locations, LocationSize, Itself, ITEM_OVERHEAD / 4);
      SumIsText(calls, CallSize, CallText, 0);
      BytesConcat(shown, JoinedOf(media, MediaText));
      BytesConcat(shown + JoinedOf(media, MediaText), JoinedOf(locations, Itself));
      BytesConcat(shown + JoinedOf(media, MediaText) + JoinedOf(locations, Itself), JoinedOf(calls, CallText));
    case Plan(entries) =>
      SumIsText(entries, TextBytes, Itself, 0);
      BytesConcat(shown, JoinedOf(entries, Itself));
    case Interaction(_, _, _, option, _) => BytesConcat(shown, option.UnwrapOr(""));
    case Generic(what) => BytesConcat(shown, what);
    case _ =>
  }
}
