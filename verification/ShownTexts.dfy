/** What a user message shows reaches back to its block: a message that ends in
    one is shown without it, and the prompt of a Routine, however chunked and
    whatever the bound, as its instruction. `projection_user_text.rs`. */
module ShownTexts {
  import opened Text
  import opened RoutineBlock
  import opened ContextScan
  import opened BlockScan
  import opened RoutinePrompt
  import opened RoutineRoundTrip
  import opened DetailText
  import opened UserTexts

  // ----- What is left out

  /** All of `text` from `start` on is left out, and the white space before it,
      and `removed` are the bytes of that. */
  ghost predicate LeavesOut(shown: DetailBlock, removed: int, text: string, start: nat) {
    exists n :: 0 <= n <= start <= |text| && IsLeftOut(shown, removed, text, start, n)
  }

  ghost predicate IsLeftOut(shown: DetailBlock, removed: int, text: string, start: nat, n: nat)
    requires n <= start <= |text|
  {
    && AllWhite(text[n..start]) && Describes(shown, text[..n]) && removed == Bytes(text[n..])
    && (shown.TextBlock? ==> n == 0 || !IsWhite(text[n - 1]))
  }

  /** A whole block starts at `start`, and none before it, where one may. */
  ghost predicate FirstWhole(text: string, start: nat) {
    WholeAt(text, start) && forall s: nat :: s < start ==> !WholeAt(text, s)
  }

  predicate WholeAt(text: string, s: nat) {
    s <= |text| && MayStart(text, s) && BlockEnd(text[s..]) == Some(Whole)
  }

  /** An owner marker at the start of the text or after white space. */
  predicate MayStart(text: string, s: nat) {
    At(text, OWNER_MARKER, s) && (s == 0 || IsWhite(text[s - 1]))
  }

  lemma MayStartIn(text: string, s: nat)
    requires MayStart(text, s)
    ensures s < |text|
  {
    OwnerTag();
  }

  /** Stripping takes the text from its first whole block on, or nothing. */
  lemma StripsFirst(text: string, start: nat)
    requires FirstWhole(text, start)
    ensures StripBlock(text, Whole) == TrimEnd(text[..start])
  {
    hide At, CutMarker, BlockStarts, BlockEnd, TrimEnd, OWNER_MARKER, FirstBlock, Increasing;
    var starts := BlockStarts(text, false);
    BlockStartsIncrease(text, false);
    FirstIsLeast(text, starts, Whole, start);
    var first := FirstBlock(text, starts, Whole).value;
    StartIsPlace(text, first);
    assert first < start ==> !WholeAt(text, first);
  }

  lemma StartIsPlace(text: string, s: nat)
    requires s in BlockStarts(text, false)
    ensures s <= |text| && (s == 0 || IsWhite(text[s - 1])) && At(text, OWNER_MARKER, s)
  {
    hide At, CutMarker, Places, MatchIndices, OWNER_MARKER;
    BlockStartsIncrease(text, false);
  }

  lemma StripsNothing(text: string)
    requires forall s: nat :: !WholeAt(text, s)
    ensures StripBlock(text, Whole) == text
  {
    hide At, CutMarker, BlockStarts, BlockEnd, TrimEnd, OWNER_MARKER;
    var starts := BlockStarts(text, false);
    assert !WholeAt(text, FirstBlock(text, starts, Whole).UnwrapOr(0));
    if FirstBlock(text, starts, Whole).Some? { StartIsPlace(text, FirstBlock(text, starts, Whole).value); }
  }

  /** The whole blocks of a text have a first. */
  lemma FirstOf(text: string, s: nat) returns (start: nat)
    requires WholeAt(text, s)
    ensures start <= s && FirstWhole(text, start)
    decreases s
  {
    hide WholeAt;
    if t: nat :| t < s && WholeAt(text, t) {
      start := FirstOf(text, t);
    } else {
      start := s;
    }
  }

  lemma TrimmedIs(text: string, start: nat, before: string, kept: string)
    requires start <= |text| && before == text[..start] && kept == TrimEnd(before)
    ensures LeavesOut(TextBlock(kept), Bytes(text) - Bytes(kept), text, start)
  {
    hide Bytes, AllWhite, IsWhite, TrimEnd;
    TrimTakes(before);
    TrimEndIsText(before);
    BytesSplit(text, |kept|);
    assert kept == before[..|kept|] == text[..|kept|];
    assert text[|kept|..start] == before[|kept|..];
    assert IsLeftOut(TextBlock(kept), Bytes(text) - Bytes(kept), text, start, |kept|);
  }

  lemma TrimEndIsText(s: string)
    ensures TrimEnd(s) == "" || !IsWhite(TrimEnd(s)[|TrimEnd(s)| - 1])
  {
  }

  lemma AfterLeavesOut(head: string, omitted: nat, rest: string, text: string, start: nat)
    requires head <= text && start <= |text| && |head| + omitted + |rest| == start && text[start - |rest|..start] == rest
    ensures LeavesOut(Excerpt(head, omitted, TrimEnd(rest)), Bytes(rest) - Bytes(TrimEnd(rest)) + Bytes(text[start..]), text, start)
  {
    hide Bytes, AllWhite, TrimEnd, Describes, IsWhite;
    var kept := TrimEnd(rest);
    var n := start - |rest| + |kept|;
    TrimTakes(rest);
    RestOf(text, start, rest, |kept|);
    RestBytes(text, n, start);
    AfterDescribes(head, omitted, rest, kept, text, start);
    assert IsLeftOut(Excerpt(head, omitted, kept), Bytes(rest) - Bytes(kept) + Bytes(text[start..]), text, start, n);
  }

  lemma RestOf(text: string, start: nat, rest: string, k: nat)
    requires k <= |rest| <= start <= |text| && text[start - |rest|..start] == rest
    ensures text[start - |rest| + k..start] == rest[k..]
  {
  }

  lemma RestBytes(text: string, n: nat, start: nat)
    requires n <= start <= |text|
    ensures Bytes(text[n..]) == Bytes(text[n..start]) + Bytes(text[start..])
  {
    hide Bytes;
    assert text[n..] == text[n..start] + text[start..];
    BytesConcat(text[n..start], text[start..]);
  }

  lemma AfterDescribes(head: string, omitted: nat, rest: string, kept: string, text: string, start: nat)
    requires head <= text && start <= |text| && |head| + omitted + |rest| == start && text[start - |rest|..start] == rest
    requires kept <= rest
    ensures Describes(Excerpt(head, omitted, kept), text[..start - |rest| + |kept|])
  {
    var n := start - |rest| + |kept|;
    assert text[..n][n - |kept|..] == text[start - |rest|..start][..|kept|];
  }

  /** A block followed that turned out whole is left out, from its start. */
  lemma BlockLeavesOut(b: BlockStart, head: string, omitted: nat, tail: string, text: string, limit: nat, start: nat)
    requires Describes(Excerpt(head, omitted, tail), text)
    requires StartsAt(b, head, text, start, limit) && ScanEnd(b.scan) == Some(Whole)
    requires CanShow(Some(b), Excerpt(head, omitted, tail))
    ensures var shown := Shown(Some(b), Excerpt(head, omitted, tail));
            LeavesOut(shown.0, shown.1, text, start)
  {
    hide Bytes, BlockEnd, TrimEnd, StripBlock, LeavesOut, Shown, StartsAt, AllWhite, ShownText, ShownAfter, FloorChars;
    hide IsCharBoundary, ScanEnd;
    StartIsBlock(b, head, text, start, limit);
    ShownWhole(b, head, omitted, tail);
    match b.before
    case InHead(s) =>
      SamePrefix(head, text, start);
      BoundaryFloor(head, s, start);
      ShownTextLeavesOut(text, start);
    case After(before, rest) =>
      if before == 0 {
        SameJoin(head, rest, text, start);
        ShownTextLeavesOut(text, start);
      } else {
        ShownAfterLeavesOut(head, before, rest, text, start);
      }
  }

  lemma ShownTextLeavesOut(text: string, start: nat)
    requires start <= |text|
    ensures var shown := ShownText(text[..start], Bytes(text[start..])); LeavesOut(shown.0, shown.1, text, start)
  {
    hide Bytes, TrimEnd, LeavesOut, AllWhite;
    TrimmedIs(text, start, text[..start], TrimEnd(text[..start]));
    BytesSplit(text, start);
  }

  lemma ShownAfterLeavesOut(head: string, omitted: nat, rest: string, text: string, start: nat)
    requires head <= text && start <= |text| && |head| + omitted + |rest| == start && text[start - |rest|..start] == rest
    ensures var shown := ShownAfter(head, omitted, rest, Bytes(text[start..])); LeavesOut(shown.0, shown.1, text, start)
  {
    hide Bytes, TrimEnd, LeavesOut, AllWhite;
    AfterLeavesOut(head, omitted, rest, text, start);
  }

  lemma TailLeavesOut(head: string, omitted: nat, tail: string, text: string, start: nat)
    requires Describes(Excerpt(head, omitted, tail), text) && FirstWhole(tail, start)
    ensures var kept := StripBlock(tail, Whole);
            && Bytes(kept) <= Bytes(tail)
            && LeavesOut(Excerpt(head, omitted, kept), Bytes(tail) - Bytes(kept), text, |text| - |tail| + start)
  {
    hide *;
    StripsFirst(tail, start);
    FirstIn(tail, start);
    StripIsPrefix(tail);
    PrefixIsShorter(tail, StripBlock(tail, Whole));
    BytesSplit(tail, start);
    TailFits(head, omitted, tail, text, start);
    InTail(text, tail, start);
    AfterLeavesOut(head, omitted, tail[..start], text, |text| - |tail| + start);
  }

  lemma StripIsPrefix(text: string)
    ensures StripBlock(text, Whole) <= text
  {
    hide BlockStarts, FirstBlock, TrimEnd;
  }

  lemma TailFits(head: string, omitted: nat, tail: string, text: string, start: nat)
    requires Describes(Excerpt(head, omitted, tail), text) && start <= |tail|
    ensures var from := |text| - |tail|;
            && 0 <= from && text[from..] == tail && head <= text && |head| + omitted + |tail[..start]| == from + start
            && text[from + start - |tail[..start]|..from + start] == tail[..start]
  {
    assert text[|text| - |tail|..][..start] == text[|text| - |tail|..|text| - |tail| + start];
  }

  lemma InTail(text: string, tail: string, start: nat)
    requires |tail| <= |text| && text[|text| - |tail|..] == tail && start <= |tail|
    ensures var from := |text| - |tail|; text[from..from + start] == tail[..start] && text[from + start..] == tail[start..]
  {
    assert text[|text| - |tail|..][..start] == text[|text| - |tail|..|text| - |tail| + start];
  }

  lemma FirstIn(text: string, start: nat)
    requires FirstWhole(text, start)
    ensures start < |text|
  {
    hide BlockEnd, At;
    MayStartIn(text, start);
  }

  /** Within the bound, a message with a whole block is shown up to its first,
      and one without as it is; beyond it, a message whose block was followed to
      its end is shown up to that, and one of which none was up to the first in
      the tail it is held with, or as it is held. */
  lemma ShownReaches(block: Option<BlockStart>, raw: DetailBlock, text: string, limit: nat)
    requires Tracks(block, raw, text, limit)
    ensures CanShow(block, raw)
    ensures var (shown, removed) := Shown(block, raw);
            match raw
            case TextBlock(_) =>
              && (forall start: nat :: FirstWhole(text, start) ==> LeavesOut(shown, removed, text, start))
              && ((forall s: nat :: !WholeAt(text, s)) ==> shown == raw && removed == 0)
            case Excerpt(head, _, tail) =>
              if block.Some? && ScanEnd(block.value.scan) == Some(Whole) then
                exists start :: StartsAt(block.value, head, text, start, limit) && LeavesOut(shown, removed, text, start)
              else
                && (forall start: nat :: FirstWhole(tail, start) ==> LeavesOut(shown, removed, text, |text| - |tail| + start))
                && ((forall s: nat :: !WholeAt(tail, s)) ==> shown == raw && removed == 0)
            case _ => false
  {
    hide Bytes, StartsAt, ScanEnd, StripBlock, LeavesOut, FirstWhole, WholeAt, BlockEnd;
    ShownSplits(block, raw, text, limit);
    match raw
    case TextBlock(_) =>
      PrefixIsShorter(text, StripBlock(text, Whole));
      forall start: nat | FirstWhole(text, start) ensures LeavesOut(Shown(block, raw).0, Shown(block, raw).1, text, start) {
        StripsFirst(text, start);
        FirstIn(text, start);
        TrimmedIs(text, start, text[..start], TrimEnd(text[..start]));
      }
      if forall s: nat :: !WholeAt(text, s) { StripsNothing(text); }
    case Excerpt(head, omitted, tail) =>
      if block.Some? && ScanEnd(block.value.scan) == Some(Whole) {
        var start :| StartsAt(block.value, head, text, start, limit);
        BlockLeavesOut(block.value, head, omitted, tail, text, limit, start);
      } else {
        PrefixIsShorter(tail, StripBlock(tail, Whole));
        forall start: nat | FirstWhole(tail, start)
          ensures LeavesOut(Shown(block, raw).0, Shown(block, raw).1, text, |text| - |tail| + start)
        {
          TailLeavesOut(head, omitted, tail, text, start);
        }
        if forall s: nat :: !WholeAt(tail, s) { StripsNothing(tail); }
      }
  }

  // ----- The prompt of a Routine, in chunks

  /** A prompt whose block is the only text in it that looks like one. */
  ghost predicate HasOneMarker(launch: Launch) {
    IsPrintable(launch) && !Contains(OwnerValue(launch), MARKER_END) && HoldsNoMarker(launch)
  }

  lemma PromptParts(launch: Launch)
    ensures var p, b := Prompt(launch), |BeforeBlock(launch)|;
            && b < |p| && p[b..] == Block(launch) && p[..b] == BeforeBlock(launch) && At(p, OWNER_MARKER, b) && p[b] == '<'
            && (b == 0 || IsWhite(p[b - 1]))
  {
    hide Trim, Block, BeforeBlock, OWNER_MARKER, IsWhite;
    MarkerStartsBlock(launch);
    BlockStartsText(launch);
    BlockPlace(launch, Prompt(launch));
    OwnerTag();
    OccurrenceStarts(Prompt(launch), OWNER_MARKER, |BeforeBlock(launch)|);
  }

  lemma EndIsAlive(s: Scan, text: string)
    requires HasRead(s, text) && BlockEnd(text).Some?
    ensures IsAlive(s)
  {
    hide BlockMarkers, Summarises, Bytes, BlockEnd;
    ScanIsExact(s, text);
  }

  /** A live text starts with an owner marker, or is the start of one. */
  lemma LiveStartsMarker(s: Scan, text: string)
    requires HasRead(s, text) && IsAlive(s) && text != ""
    ensures OWNER_MARKER <= text || text <= OWNER_MARKER
  {
    hide ReadValue, Bytes, Summarises, AfterOwner;
  }

  lemma InsideMarker(text: string, s: nat, k: nat)
    requires s < k < |text| && text[s..] <= OWNER_MARKER
    ensures text[k] != '<'
  {
    hide OWNER_MARKER;
    OwnerTag();
    assert text[k] == text[s..][k - s] == OWNER_MARKER[k - s];
  }

  /** Nothing that starts before the block lives on past its start. */
  lemma EarlierDies(launch: Launch, scan: Scan, start: nat, c: nat)
    requires HoldsNoMarker(launch) && start < |BeforeBlock(launch)| < c <= |Prompt(launch)|
    requires HasRead(scan, Prompt(launch)[start..c])
    ensures !IsAlive(scan)
  {
    hide HasRead, IsAlive, OWNER_MARKER, Trim, BeforeBlock, Block, Prompt, At, HoldsNoMarker;
    var p, b := Prompt(launch), |BeforeBlock(launch)|;
    var text := p[start..c];
    PromptParts(launch);
    assert text[b - start] == p[b];
    if IsAlive(scan) {
      LiveStartsMarker(scan, text);
      if OWNER_MARKER <= text {
        MarkerAt(p, start, c);
        OnlyMarker(launch, start);
      } else {
        assert text[0..] == text;
        InsideMarker(text, 0, b - start);
      }
    }
  }

  lemma MarkerAt(p: string, start: nat, c: nat)
    requires start <= c <= |p| && OWNER_MARKER <= p[start..c]
    ensures At(p, OWNER_MARKER, start)
  {
    hide OWNER_MARKER;
    var n := |OWNER_MARKER|;
    assert p[start..c][..n] == p[start..start + n];
  }

  lemma {:induction false} FirstLiveIs(text: string, starts: seq<nat>, start: nat)
    requires Increasing(starts) && start in starts && start <= |text| && IsAlive(Read(UNREAD, text[start..]))
    requires forall s :: s in starts ==> start <= s
    ensures FirstLive(text, starts) == Some(start)
  {
    hide IsAlive, Read;
    assert starts[0] in starts;
    var i :| 0 <= i < |starts| && starts[i] == start;
    assert starts[0] <= starts[i];
  }

  /** In any part of the prompt that holds the start of the block, the block is
      the first text that lives. */
  lemma BlockLivesFirst(launch: Launch, w: nat, c: nat)
    requires HasOneMarker(launch) && w <= |BeforeBlock(launch)| < c <= |Prompt(launch)|
    ensures LiveStart(Prompt(launch)[w..c]) == Some(|BeforeBlock(launch)| - w)
  {
    hide HasRead, IsAlive, OWNER_MARKER, Trim, BeforeBlock, Block, Prompt, At, HasOneMarker, BlockEnd, BlockStarts, Increasing, Read;
    var p, b := Prompt(launch), |BeforeBlock(launch)|;
    var text := p[w..c];
    PromptParts(launch);
    BlockStartsIncrease(text, true);
    BlockIsStart(launch, w, c);
    forall s | s in BlockStarts(text, true) ensures b - w <= s {
      NoneEarlier(launch, w, c, s);
    }
    assert text[b - w..] == p[b..c] == Block(launch)[..c - b];
    PartIsBlock(launch, Block(launch)[..c - b]);
    FreshScanReads(text[b - w..]);
    EndIsAlive(Read(UNREAD, text[b - w..]), text[b - w..]);
    FirstLiveIs(text, BlockStarts(text, true), b - w);
  }

  lemma PartIsBlock(launch: Launch, part: string)
    requires HasOneMarker(launch) && part != "" && part <= Block(launch)
    ensures BlockEnd(part).Some?
  {
    hide BlockEnd, Block, IsPrintable, Contains;
    PrefixIsBlock(launch, part);
  }

  lemma BlockIsStart(launch: Launch, w: nat, c: nat)
    requires w <= |BeforeBlock(launch)| < c <= |Prompt(launch)|
    ensures |BeforeBlock(launch)| - w in BlockStarts(Prompt(launch)[w..c], true)
  {
    hide OWNER_MARKER, Trim, BeforeBlock, Block, At, CutMarker, MatchIndices, Prompt, IsWhite, Places;
    var p, b := Prompt(launch), |BeforeBlock(launch)|;
    var text := p[w..c];
    OwnerTag();
    PromptParts(launch);
    assert b > w ==> text[b - w - 1] == p[b - 1];
    assert IsPlace(text, b - w);
    if b + |OWNER_MARKER| <= c {
      PartAt(p, w, c, b);
      BlockStartsIncrease(text, true);
    } else {
      PartOfMarker(p, w, c, b);
      CutMarkerIs(text, c - b, |OWNER_MARKER| - 1);
    }
  }

  lemma PartAt(p: string, w: nat, c: nat, b: nat)
    requires w <= b <= c <= |p| && b + |OWNER_MARKER| <= c
    ensures At(p, OWNER_MARKER, b) <==> At(p[w..c], OWNER_MARKER, b - w)
  {
    hide OWNER_MARKER;
    SliceOfSlice(p, w, c, b - w, b - w + |OWNER_MARKER|);
  }

  lemma SliceOfSlice(p: string, w: nat, c: nat, i: nat, j: nat)
    requires w <= c <= |p| && i <= j <= c - w
    ensures p[w..c][i..j] == p[w + i..w + j]
  {
    var a, b := p[w..c][i..j], p[w + i..w + j];
    forall k | 0 <= k < |a| ensures a[k] == b[k] {
    }
    assert a == b;
  }

  lemma PartOfMarker(p: string, w: nat, c: nat, b: nat)
    requires w <= b < c <= |p| && At(p, OWNER_MARKER, b) && c < b + |OWNER_MARKER|
    ensures var text := p[w..c]; text[|text| - (c - b)..] == OWNER_MARKER[..c - b]
  {
    hide OWNER_MARKER;
    assert p[w..c][b - w..] == p[b..c] == p[b..b + |OWNER_MARKER|][..c - b];
  }

  lemma NoneEarlier(launch: Launch, w: nat, c: nat, s: nat)
    requires HasOneMarker(launch) && w <= |BeforeBlock(launch)| < c <= |Prompt(launch)|
    requires s in BlockStarts(Prompt(launch)[w..c], true)
    ensures |BeforeBlock(launch)| - w <= s
  {
    hide OWNER_MARKER, Trim, BeforeBlock, Block, At, CutMarker, Prompt, BlockStarts, IsPrintable, HoldsNoMarker, Contains;
    var p, b := Prompt(launch), |BeforeBlock(launch)|;
    var text := p[w..c];
    OwnerTag();
    PromptParts(launch);
    BlockStartsIncrease(text, true);
    if At(text, OWNER_MARKER, s) {
      MatchFits(text, OWNER_MARKER, s);
      PartAt(p, w, c, w + s);
      OnlyMarker(launch, w + s);
    } else {
      assert text[b - w] == p[b];
      CutHasOne(text, s, b - w);
    }
  }

  /** The start of a cut marker is its one `<`. */
  lemma CutHasOne(text: string, s: nat, k: nat)
    requires CutMarker(text, |OWNER_MARKER| - 1) == Some(s) && k < |text| && text[k] == '<'
    ensures k <= s
  {
    hide CutMarker, OWNER_MARKER;
    OwnerTag();
    if s < k { InsideMarker(text, s, k); }
  }

  /** Once the prompt is beyond the bound and its block has begun, the block is
      the one followed. */
  ghost predicate Follows(launch: Launch, block: Option<BlockStart>, raw: DetailBlock, text: string, limit: nat) {
    |BeforeBlock(launch)| < |text| && raw.Excerpt? ==>
      block.Some? && StartsAt(block.value, raw.head, text, |BeforeBlock(launch)|, limit)
  }

  lemma FirstFollows(launch: Launch, text: string, limit: nat)
    requires HasOneMarker(launch) && text <= Prompt(launch) && |BeforeBlock(launch)| < |text| && limit < Bytes(text)
    ensures var next := FirstBlockStart(text, limit);
            next.Some? && StartsAt(next.value, text[..HeadEnd(text, limit)], text, |BeforeBlock(launch)|, limit)
  {
    hide *;
    assert text == Prompt(launch)[0..|text|];
    BlockLivesFirst(launch, 0, |text|);
    FirstIsFound(text, limit);
    var start := FirstTracks(text, limit);
  }

  lemma FirstIsFound(text: string, limit: nat)
    ensures FirstBlockStart(text, limit).Some? <==> LiveStart(text).Some?
  {
    hide LiveStart, BeforeOf, HeadEnd, Read, Bytes;
  }

  /** A block not followed before is found in the window. */
  lemma WindowFollows(launch: Launch, block: Option<BlockStart>, head: string, omitted: nat, tail: string, text: string,
                      more: string, limit: nat)
    requires HasOneMarker(launch) && Describes(Excerpt(head, omitted, tail), text) && text + more <= Prompt(launch)
    requires |text| <= |BeforeBlock(launch)| < |text + more| && (omitted > 0 ==> ReachesBack(text, |text| - |tail|, limit))
    requires block.Some? ==> exists start :: StartsAt(block.value, head, text, start, limit)
    ensures var next := NextBlockStart(block, omitted, tail + more, more, limit);
            next.Some? && StartsAt(next.value, head, text + more, |BeforeBlock(launch)|, limit)
  {
    hide Bytes, LiveStart, HasOneMarker, BeforeBlock, Prompt, Read, IsAlive, HasRead, Describes, BeforeOf, StartsAt, ReachesBack;
    var b, window := |BeforeBlock(launch)|, tail + more;
    var w := WindowIs(head, omitted, tail, text, more, Prompt(launch));
    if block.Some? {
      var start :| StartsAt(block.value, head, text, start, limit);
      OlderDies(launch, block.value, head, text, more, limit, start);
    }
    BlockLivesFirst(launch, w, |text + more|);
    if omitted > 0 { MoreReachesBack(text, more, w, limit); }
    FoundTracks(head, omitted, window, text + more, limit, b - w);
  }

  lemma WindowIs(head: string, omitted: nat, tail: string, text: string, more: string, p: string) returns (w: nat)
    requires Describes(Excerpt(head, omitted, tail), text) && text + more <= p
    ensures w <= |text| && w == |text + more| - |tail + more| && p[w..|text + more|] == tail + more
    ensures |head| + omitted + |tail + more| == |text + more| && (text + more)[w..] == tail + more
  {
    w := |text| - |tail|;
    assert text[w..] == tail;
    assert (text + more)[w..] == text[w..] + more;
    assert p[..|text + more|] == text + more;
  }

  lemma OlderDies(launch: Launch, block: BlockStart, head: string, text: string, more: string, limit: nat, start: nat)
    requires HasOneMarker(launch) && StartsAt(block, head, text, start, limit) && text + more <= Prompt(launch)
    requires |text| <= |BeforeBlock(launch)| < |text + more|
    ensures !IsAlive(Read(block.scan, more))
  {
    hide Bytes, Read, IsAlive, HasRead, BeforeBlock, Prompt, IsPrintable, HoldsNoMarker, Contains;
    ReadKeeps(block.scan, text[start..], more);
    assert text[start..] + more == (text + more)[start..] == Prompt(launch)[start..|text + more|];
    EarlierDies(launch, Read(block.scan, more), start, |text + more|);
  }

  /** The block followed goes on. */
  lemma BlockGoesOn(launch: Launch, block: BlockStart, head: string, text: string, more: string, limit: nat)
    requires HasOneMarker(launch) && text + more <= Prompt(launch) && |BeforeBlock(launch)| < |text|
    requires StartsAt(block, head, text, |BeforeBlock(launch)|, limit)
    ensures IsAlive(Read(block.scan, more))
    ensures StartsAt(block.(scan := Read(block.scan, more)), head, text + more, |BeforeBlock(launch)|, limit)
  {
    hide Bytes, Read, IsAlive, HasRead, BeforeBlock, Prompt, HasOneMarker, Block, BlockEnd;
    var b := |BeforeBlock(launch)|;
    PromptParts(launch);
    ReadKeeps(block.scan, text[b..], more);
    var part := (text + more)[b..];
    assert text[b..] + more == part && part == Prompt(launch)[b..|text + more|];
    assert part == Block(launch)[..|text + more| - b];
    PartIsBlock(launch, part);
    EndIsAlive(Read(block.scan, more), part);
    FollowedTracks(block, head, text, more, limit, b);
  }

  lemma ExtendFollows(launch: Launch, block: Option<BlockStart>, raw: DetailBlock, text: string, more: string, limit: nat)
    requires HasOneMarker(launch) && text + more <= Prompt(launch)
    requires Tracks(block, raw, text, limit) && Follows(launch, block, raw, text, limit)
    ensures var (next, known) := Extend(block, raw, more, limit); Follows(launch, next, known, text + more, limit)
  {
    hide Bytes, HasOneMarker, BeforeBlock, Prompt, StartsAt, NextBlockStart, FirstBlockStart, HeadEnd, TailStart, ReachesBack;
    if |BeforeBlock(launch)| < |text + more| {
      match raw
      case TextBlock(_) =>
        SameText(raw, text);
        if limit < Bytes(text + more) { FirstFollows(launch, text + more, limit); }
      case Excerpt(head, omitted, tail) =>
        if |BeforeBlock(launch)| < |text| {
          BlockGoesOn(launch, block.value, head, text, more, limit);
          NextIsPushed(block, omitted, tail + more, more, limit);
        } else {
          WindowFollows(launch, block, head, omitted, tail, text, more, limit);
        }
    }
  }

  lemma SameText(raw: DetailBlock, text: string)
    requires Describes(raw, text) && raw.TextBlock?
    ensures raw.text == text
  {
  }

  lemma NextIsPushed(block: Option<BlockStart>, omitted: nat, window: string, more: string, limit: nat)
    requires block.Some? && IsAlive(Read(block.value.scan, more))
    ensures NextBlockStart(block, omitted, window, more, limit) == Some(block.value.(scan := Read(block.value.scan, more)))
  {
    hide IsAlive, Read, LiveStart, BeforeOf;
  }

  lemma {:induction false} ExtendEachFollows(launch: Launch, chunks: seq<string>, limit: nat)
    requires HasOneMarker(launch) && Joined(chunks) <= Prompt(launch)
    ensures Follows(launch, ExtendEach(chunks, limit).0, ExtendEach(chunks, limit).1, Joined(chunks), limit)
  {
    hide HasOneMarker, Prompt, Follows, Extend, Tracks;
    if chunks == [] {
      NothingFollows(launch, limit);
    } else {
      var n := |chunks| - 1;
      assert Joined(chunks[..n]) <= Joined(chunks);
      ExtendEachFollows(launch, chunks[..n], limit);
      ExtendEachTracks(chunks[..n], limit);
      var (block, known) := ExtendEach(chunks[..n], limit);
      ExtendFollows(launch, block, known, Joined(chunks[..n]), chunks[n], limit);
    }
  }

  lemma NothingFollows(launch: Launch, limit: nat)
    ensures Follows(launch, None, TextBlock(""), "", limit)
  {
  }

  lemma {:induction false} WithinIsText(chunks: seq<string>, limit: nat)
    requires Bytes(Joined(chunks)) <= limit
    ensures ExtendEach(chunks, limit) == (None, TextBlock(Joined(chunks)))
  {
    hide Bytes;
    if chunks != [] {
      var n := |chunks| - 1;
      BytesConcat(Joined(chunks[..n]), chunks[n]);
      WithinIsText(chunks[..n], limit);
    }
  }

  /** However the prompt of a Routine is chunked and whatever the bound, what is
      shown of it ends where its block begins. */
  lemma PromptLeavesOutBlock(launch: Launch, chunks: seq<string>, limit: nat)
    requires HasOneMarker(launch) && Joined(chunks) == Prompt(launch)
    ensures var (block, raw) := ExtendEach(chunks, limit);
            && CanShow(block, raw)
            && var (shown, removed) := Shown(block, raw);
               LeavesOut(shown, removed, Prompt(launch), |BeforeBlock(launch)|)
  {
    hide *;
    var (block, raw) := ExtendEach(chunks, limit);
    var p, b := Prompt(launch), |BeforeBlock(launch)|;
    ExtendEachTracks(chunks, limit);
    ExtendEachFollows(launch, chunks, limit);
    ShownReaches(block, raw, p, limit);
    PromptParts(launch);
    if raw.TextBlock? {
      MarkerIsFirst(launch);
    } else {
      FollowedToEnd(launch, block, raw, limit);
      TracksBlock(block, raw, p, limit);
      BlockLeavesOut(block.value, raw.head, raw.omitted, raw.tail, p, limit, b);
    }
  }

  lemma TracksBlock(block: Option<BlockStart>, raw: DetailBlock, text: string, limit: nat)
    requires Tracks(block, raw, text, limit)
    ensures raw.TextBlock? || raw.Excerpt?
    ensures Describes(raw, text)
  {
    hide Bytes, StartsAt, Describes;
  }

  lemma MarkerIsFirst(launch: Launch)
    requires HasOneMarker(launch)
    ensures FirstWhole(Prompt(launch), |BeforeBlock(launch)|)
  {
    hide BeforeBlock, Prompt, BlockEnd, OWNER_MARKER, At, IsPrintable, HoldsNoMarker, Contains, Block, IsWhite;
    var p, b := Prompt(launch), |BeforeBlock(launch)|;
    PromptParts(launch);
    BlockIsWhole(launch);
    forall s: nat | s < b ensures !WholeAt(p, s) {
      if At(p, OWNER_MARKER, s) { OnlyMarker(launch, s); }
    }
  }

  lemma FollowedToEnd(launch: Launch, block: Option<BlockStart>, raw: DetailBlock, limit: nat)
    requires HasOneMarker(launch) && raw.Excerpt? && Follows(launch, block, raw, Prompt(launch), limit)
    ensures block.Some? && StartsAt(block.value, raw.head, Prompt(launch), |BeforeBlock(launch)|, limit)
    ensures ScanEnd(block.value.scan) == Some(Whole)
  {
    hide BeforeBlock, Prompt, BlockEnd, Block, HasRead, ScanEnd, IsAlive, Bytes, IsPrintable, HoldsNoMarker, Contains;
    PromptParts(launch);
    BlockIsWhole(launch);
    ScanIsExact(block.value.scan, Block(launch));
  }

  /** What is left when the block of a prompt is left out. */
  lemma LeavesInstruction(launch: Launch, shown: DetailBlock, removed: int)
    requires LeavesOut(shown, removed, Prompt(launch), |BeforeBlock(launch)|)
    ensures exists n :: |Trim(launch.instruction)| <= n <= |BeforeBlock(launch)|
                        && IsLeftOut(shown, removed, Prompt(launch), |BeforeBlock(launch)|, n)
    ensures shown.TextBlock? ==>
              shown.text == Trim(launch.instruction)
              && removed == Bytes(Prompt(launch)) - Bytes(Trim(launch.instruction))
  {
    hide Bytes, Prompt, BeforeBlock, Trim, IsWhite, TrimEnd, Describes, Block;
    var p, b := Prompt(launch), |BeforeBlock(launch)|;
    PromptParts(launch);
    BeforeBlockTrims(launch);
    var n :| 0 <= n <= b <= |p| && IsLeftOut(shown, removed, p, b, n);
    assert p[n..b] == BeforeBlock(launch)[n..] && p[..n] == BeforeBlock(launch)[..n];
    TrimIsShorter(BeforeBlock(launch), n);
    BytesSplit(p, n);
    if shown.TextBlock? {
      assert n > 0 ==> p[..n][n - 1] == p[n - 1];
      TrimEndIsUnique(BeforeBlock(launch), p[..n]);
      SameText(shown, p[..n]);
    }
  }

  lemma TrimIsShorter(s: string, n: nat)
    requires n <= |s| && AllWhite(s[n..])
    ensures |TrimEnd(s)| <= n
  {
    AllWhiteTrims(s[n..]);
    TrimEndMore(s[..n], s[n..]);
    assert s[..n] + s[n..] == s;
  }

  /** So the prompt of a Routine is shown as its instruction: all of it within
      the bound, and beyond it at least up to there and not into the block. */
  lemma PromptShown(launch: Launch, chunks: seq<string>, limit: nat)
    requires HasOneMarker(launch) && Joined(chunks) == Prompt(launch)
    ensures var (block, raw) := ExtendEach(chunks, limit);
            && CanShow(block, raw)
            && var (shown, removed) := Shown(block, raw);
               && (shown.TextBlock? ==> shown.text == Trim(launch.instruction)
                                        && removed == Bytes(Prompt(launch)) - Bytes(Trim(launch.instruction)))
               && exists n :: |Trim(launch.instruction)| <= n <= |BeforeBlock(launch)|
                              && IsLeftOut(shown, removed, Prompt(launch), |BeforeBlock(launch)|, n)
  {
    hide *;
    PromptParts(launch);
    PromptLeavesOutBlock(launch, chunks, limit);
    var (block, raw) := ExtendEach(chunks, limit);
    LeavesInstruction(launch, Shown(block, raw).0, Shown(block, raw).1);
  }

  /** Within the bound, the prompt of any launch whose block is whole is shown
      as its instruction, whatever lookalikes that holds. */
  lemma PromptWithin(launch: Launch, chunks: seq<string>, limit: nat)
    requires BlockEnd(Block(launch)) == Some(Whole) && Joined(chunks) == Prompt(launch) && Bytes(Prompt(launch)) <= limit
    ensures var (block, raw) := ExtendEach(chunks, limit);
            && CanShow(block, raw)
            && Shown(block, raw) == (TextBlock(Trim(launch.instruction)), Bytes(Prompt(launch)) - Bytes(Trim(launch.instruction)))
  {
    hide Bytes, Prompt, Trim, Block, BlockEnd, StripBlock;
    WithinIsText(chunks, limit);
    StripsExactlyWholeBlocks(launch);
  }
}
