/** The text of a user message, streamed and bounded, and shown without the
    Routine block it ends with: `projection_user_text.rs`. */
module UserTexts {
  import opened Text
  import opened RoutineBlock
  import opened BlockScan
  import opened RoutinePrompt
  import opened DetailText

  /** The message before a block: the byte of the detail head where the block
      starts, or the characters omitted after the head and the text up to the
      block. */
  datatype Before = InHead(start: nat) | After(omitted: nat, tail: string)

  /** A block a message beyond the bound may end with. */
  datatype BlockStart = BlockStart(before: Before, scan: Scan)

  /** The first of `starts` from which the text may be or become a block. */
  function FirstLive(text: string, starts: seq<nat>): (r: Option<nat>)
    ensures r.Some? ==> r.value in starts && r.value <= |text| && IsAlive(Read(UNREAD, text[r.value..]))
    ensures r.None? ==> forall s :: s in starts && s <= |text| ==> !IsAlive(Read(UNREAD, text[s..]))
  {
    if starts == [] then None
    else if starts[0] <= |text| && IsAlive(Read(UNREAD, text[starts[0]..])) then Some(starts[0])
    else FirstLive(text, starts[1..])
  }

  /** `routine_block_start`: the leftmost place of such a block. */
  function LiveStart(text: string): (r: Option<nat>)
    ensures r.Some? ==> r.value <= |text| && IsAlive(Read(UNREAD, text[r.value..]))
  {
    FirstLive(text, BlockStarts(text, true))
  }

  /** `before` */
  function BeforeOf(text: string, omitted: nat, share: nat): (b: Before)
    ensures b.After?
  {
    var cut := TailStart(text, share);
    After(omitted + cut, text[cut..])
  }

  function Share(limit: nat): nat {
    TailBudget(limit) / 2
  }

  /** `UserText::tail_budget` */
  function NewestBudget(block: Option<BlockStart>, limit: nat): nat {
    match block
    case Some(_) => TailBudget(limit) - TailBudget(limit) / 2
    case None => TailBudget(limit)
  }

  function Larger(x: nat, y: nat): nat {
    if x < y then y else x
  }

  /** The block looked for when a text first passes the bound. */
  function FirstBlockStart(text: string, limit: nat): Option<BlockStart> {
    match LiveStart(text)
    case Some(start) =>
      var head := HeadEnd(text, limit);
      Some(BlockStart(
             if start <= head then InHead(Bytes(text[..start])) else BeforeOf(text[head..start], 0, Share(limit)),
             Read(UNREAD, text[start..])))
    case None => None
  }

  /** The block followed, or looked for in the newest text. */
  function NextBlockStart(block: Option<BlockStart>, omitted: nat, window: string, more: string, limit: nat): Option<BlockStart> {
    var pushed := match block case Some(b) => Some(b.(scan := Read(b.scan, more))) case None => None;
    if pushed.Some? && IsAlive(pushed.value.scan) then pushed
    else
      match LiveStart(window)
      case Some(start) =>
        Some(BlockStart(BeforeOf(window[..start], omitted, Share(limit)), Read(UNREAD, window[start..])))
      case None => None
  }

  /** `UserText::extend` */
  function Extend(block: Option<BlockStart>, known: DetailBlock, more: string, limit: nat)
    : (Option<BlockStart>, DetailBlock)
  {
    match known
    case TextBlock(text) =>
      var whole := text + more;
      if Bytes(whole) <= limit then (block, TextBlock(whole))
      else
        var next := FirstBlockStart(whole, limit);
        var head := HeadEnd(whole, limit);
        var start := Larger(TailStart(whole, NewestBudget(next, limit)), head);
        (next, Excerpt(whole[..head], start - head, whole[start..]))
    case Excerpt(head, omitted, tail) =>
      var window := tail + more;
      var next := NextBlockStart(block, omitted, window, more, limit);
      var cut := TailStart(window, NewestBudget(next, limit));
      (next, Excerpt(head, omitted + cut, window[cut..]))
    case Diff(_, _, _) => (block, known)
    case Terminal(_) => (block, known)
  }

  /** A whole block that starts in the head is shown by slicing the head at the
      byte where it starts, which must be a character boundary of that head. */
  predicate CanShow(block: Option<BlockStart>, raw: DetailBlock) {
    raw.Excerpt? && block.Some? && block.value.before.InHead? && ScanEnd(block.value.scan) == Some(Whole) ==>
      IsCharBoundary(raw.head, block.value.before.start)
  }

  /** The block held starts in the head it is held with, if it does in any. */
  predicate HeadHolds(block: Option<BlockStart>, raw: DetailBlock) {
    raw.Excerpt? && block.Some? && block.value.before.InHead? ==> IsCharBoundary(raw.head, block.value.before.start)
  }

  /** `UserText::shown`: the detail without a whole block at its end and the
      white space before it, and the bytes of text that leaves out. */
  function Shown(block: Option<BlockStart>, raw: DetailBlock): (DetailBlock, nat)
    requires CanShow(block, raw)
  {
    match raw
    case Excerpt(head, omitted, tail) =>
      if block.Some? && ScanEnd(block.value.scan) == Some(Whole) then ShownBefore(block.value.before, head, block.value.scan.len)
      else
        var shown := StripBlock(tail, Whole);
        PrefixIsShorter(tail, shown);
        (Excerpt(head, omitted, shown), Bytes(tail) - Bytes(shown))
    case TextBlock(text) =>
      var shown := StripBlock(text, Whole);
      PrefixIsShorter(text, shown);
      (TextBlock(shown), Bytes(text) - Bytes(shown))
    case Diff(_, _, _) => (raw, 0)
    case Terminal(_) => (raw, 0)
  }

  /** The message before a whole block of `gone` bytes. */
  function ShownBefore(before: Before, head: string, gone: nat): (DetailBlock, nat)
    requires before.InHead? ==> IsCharBoundary(head, before.start)
  {
    match before
    case InHead(start) => ShownText(head[..FloorChars(head, start)], gone)
    case After(omitted, rest) =>
      if omitted == 0 then ShownText(head + rest, gone) else ShownAfter(head, omitted, rest, gone)
  }

  function ShownText(text: string, gone: nat): (DetailBlock, nat) {
    PrefixIsShorter(text, TrimEnd(text));
    (TextBlock(TrimEnd(text)), Bytes(text) - Bytes(TrimEnd(text)) + gone)
  }

  function ShownAfter(head: string, omitted: nat, tail: string, gone: nat): (DetailBlock, nat) {
    PrefixIsShorter(tail, TrimEnd(tail));
    (Excerpt(head, omitted, TrimEnd(tail)), Bytes(tail) - Bytes(TrimEnd(tail)) + gone)
  }

  // ----- What the text held tells of the message

  /** From `from` to its end the text has at least half the bytes kept for its
      tail, but for a character cut. */
  ghost predicate ReachesBack(text: string, from: nat, limit: nat)
    requires from <= |text|
  {
    TailBudget(limit) / 2 < Bytes(text[from..]) + 4
  }

  /** The block held starts at `start` of `text`, and what it holds of the
      text before it is the end of that, all of it or back to there. */
  ghost predicate StartsAt(b: BlockStart, head: string, text: string, start: nat, limit: nat) {
    && start < |text| && HasRead(b.scan, text[start..]) && IsAlive(b.scan)
    && match b.before
       case InHead(s) => start <= |head| && s == Bytes(text[..start])
       case After(omitted, tail) =>
         && |head| + omitted + |tail| == start && text[start - |tail|..start] == tail
         && Bytes(tail) <= Share(limit) && (omitted > 0 ==> ReachesBack(text, start - |tail|, limit))
  }

  /** `known` and `block` are what streaming `text` left. */
  ghost predicate Tracks(block: Option<BlockStart>, known: DetailBlock, text: string, limit: nat) {
    && Describes(known, text)
    && match known
       case TextBlock(_) => Bytes(text) <= limit && block == None
       case Excerpt(head, omitted, tail) =>
         && Bytes(head) <= HeadBudget(limit) < Bytes(head) + 4 && Bytes(tail) <= NewestBudget(block, limit)
         && (omitted > 0 ==> ReachesBack(text, |text| - |tail|, limit))
         && (block.Some? ==> exists start :: StartsAt(block.value, head, text, start, limit))
       case _ => false
  }

  lemma BeforeOfBytes(text: string, omitted: nat, share: nat)
    ensures var b := BeforeOf(text, omitted, share);
            && b.omitted + |b.tail| == omitted + |text| && Bytes(b.tail) <= share
            && |b.tail| <= |text| && text[|text| - |b.tail|..] == b.tail
            && (omitted < b.omitted ==> share < Bytes(b.tail) + 4)
  {
    TailBytes(text, share);
  }

  lemma FreshScanReads(text: string)
    ensures HasRead(Read(UNREAD, text), text)
  {
    NothingRead();
    ReadKeeps(UNREAD, "", text);
    assert "" + text == text;
  }

  lemma EndReachesBack(text: string, tail: string, start: nat, limit: nat)
    requires |tail| <= start <= |text| && text[start - |tail|..start] == tail && TailBudget(limit) / 2 < Bytes(tail) + 4
    ensures ReachesBack(text, start - |tail|, limit)
  {
    assert text[start - |tail|..] == tail + text[start..];
    BytesConcat(tail, text[start..]);
  }

  lemma MoreReachesBack(text: string, more: string, from: nat, limit: nat)
    requires from <= |text| && ReachesBack(text, from, limit)
    ensures ReachesBack(text + more, from, limit)
  {
    assert (text + more)[from..] == text[from..] + more;
    BytesConcat(text[from..], more);
  }

  /** A tail with nothing cut from it, or as much as the budget allows. */
  lemma CutReachesBack(text: string, window: string, cut: nat, budget: nat, limit: nat)
    requires |window| <= |text| && text[|text| - |window|..] == window && TailBudget(limit) / 2 <= budget
    requires cut == TailStart(window, budget)
    ensures cut > 0 ==> ReachesBack(text, |text| - |window[cut..]|, limit)
  {
    TailBytes(window, budget);
    assert text[|text| - |window| + cut..] == window[cut..];
  }

  lemma LiveIsText(text: string)
    requires IsAlive(Read(UNREAD, text))
    ensures text != ""
  {
  }

  lemma FirstTracks(text: string, limit: nat) returns (start: nat)
    requires limit < Bytes(text) && FirstBlockStart(text, limit).Some?
    ensures LiveStart(text) == Some(start)
    ensures StartsAt(FirstBlockStart(text, limit).value, text[..HeadEnd(text, limit)], text, start, limit)
  {
    hide Bytes, LiveStart, Read, HasRead, IsAlive, HeadEnd, BeforeOf;
    start := LiveStart(text).value;
    var head := HeadEnd(text, limit);
    FreshScanReads(text[start..]);
    LiveIsText(text[start..]);
    if head < start {
      BeforeOfBytes(text[head..start], 0, Share(limit));
      var before := BeforeOf(text[head..start], 0, Share(limit));
      EndOfSlice(text, head, start, |before.tail|);
      if before.omitted > 0 { EndReachesBack(text, before.tail, start, limit); }
    }
  }

  lemma EndOfSlice(text: string, from: nat, to: nat, n: nat)
    requires from + n <= to <= |text|
    ensures text[from..to][to - from - n..] == text[to - n..to]
  {
  }

  lemma FoundTracks(head: string, omitted: nat, window: string, text: string, limit: nat, start: nat)
    requires |head| + omitted + |window| == |text| && text[|text| - |window|..] == window
    requires LiveStart(window) == Some(start)
    requires omitted > 0 ==> ReachesBack(text, |text| - |window|, limit)
    ensures StartsAt(BlockStart(BeforeOf(window[..start], omitted, Share(limit)), Read(UNREAD, window[start..])),
                     head, text, |text| - |window| + start, limit)
  {
    hide Bytes, LiveStart, Read, HasRead, IsAlive, BeforeOf, ReachesBack;
    FreshScanReads(window[start..]);
    LiveIsText(window[start..]);
    BeforeOfBytes(window[..start], omitted, Share(limit));
    var before := BeforeOf(window[..start], omitted, Share(limit));
    var from := |text| - |window|;
    WindowEnds(text, window, start, before.tail);
    if before.omitted > omitted { EndReachesBack(text, before.tail, from + start, limit); }
  }

  lemma WindowEnds(text: string, window: string, start: nat, tail: string)
    requires |window| <= |text| && text[|text| - |window|..] == window && start <= |window|
    requires |tail| <= start && window[..start][start - |tail|..] == tail
    ensures var from := |text| - |window|;
            text[from + start..] == window[start..] && text[from + start - |tail|..from + start] == tail
  {
    var from := |text| - |window|;
    assert text[from + start..] == text[from..][start..];
    assert text[from + start - |tail|..from + start] == text[from..][start - |tail|..start];
    assert window[..start][start - |tail|..] == window[start - |tail|..start];
  }

  lemma FollowedTracks(b: BlockStart, head: string, text: string, more: string, limit: nat, start: nat)
    requires StartsAt(b, head, text, start, limit) && IsAlive(Read(b.scan, more))
    ensures StartsAt(b.(scan := Read(b.scan, more)), head, text + more, start, limit)
  {
    hide Bytes, Read, HasRead, IsAlive, ReachesBack;
    ReadKeeps(b.scan, text[start..], more);
    assert (text + more)[start..] == text[start..] + more;
    assert (text + more)[..start] == text[..start];
    if b.before.After? {
      var tail := b.before.tail;
      assert (text + more)[start - |tail|..start] == text[start - |tail|..start];
      if b.before.omitted > 0 { MoreReachesBack(text, more, start - |tail|, limit); }
    }
  }

  lemma NextTracks(block: Option<BlockStart>, head: string, omitted: nat, tail: string, text: string, more: string, limit: nat)
    requires Describes(Excerpt(head, omitted, tail), text)
    requires omitted > 0 ==> ReachesBack(text, |text| - |tail|, limit)
    requires block.Some? ==> exists start :: StartsAt(block.value, head, text, start, limit)
    ensures var next := NextBlockStart(block, omitted, tail + more, more, limit);
            next.Some? ==> exists start :: StartsAt(next.value, head, text + more, start, limit)
  {
    hide Bytes, Read, HasRead, IsAlive, LiveStart, StartsAt, BeforeOf, ReachesBack;
    var window := tail + more;
    if omitted > 0 { MoreReachesBack(text, more, |text| - |tail|, limit); }
    assert (text + more)[|text + more| - |window|..] == window;
    if block.Some? && IsAlive(Read(block.value.scan, more)) {
      var start :| StartsAt(block.value, head, text, start, limit);
      FollowedTracks(block.value, head, text, more, limit, start);
    } else if LiveStart(window).Some? {
      FoundTracks(head, omitted, window, text + more, limit, LiveStart(window).value);
    }
  }

  lemma ExtendTracks(block: Option<BlockStart>, known: DetailBlock, text: string, more: string, limit: nat)
    requires Tracks(block, known, text, limit)
    ensures var next := Extend(block, known, more, limit);
            Tracks(next.0, next.1, text + more, limit)
  {
    hide Bytes, LiveStart, HeadEnd, TailStart, NextBlockStart, FirstBlockStart, StartsAt, ReachesBack;
    match known
    case TextBlock(_) =>
      if limit < Bytes(text + more) { FirstExtendTracks(text + more, limit); }
    case Excerpt(head, omitted, tail) =>
      NextTracks(block, head, omitted, tail, text, more, limit);
      LaterExtendTracks(NextBlockStart(block, omitted, tail + more, more, limit), head, omitted, tail, text, more, limit);
  }

  lemma LaterExtendTracks(next: Option<BlockStart>, head: string, omitted: nat, tail: string, text: string, more: string, limit: nat)
    requires Describes(Excerpt(head, omitted, tail), text) && Bytes(head) <= HeadBudget(limit) < Bytes(head) + 4
    requires omitted > 0 ==> ReachesBack(text, |text| - |tail|, limit)
    requires next.Some? ==> exists start :: StartsAt(next.value, head, text + more, start, limit)
    ensures var window := tail + more;
            var cut := TailStart(window, NewestBudget(next, limit));
            Tracks(next, Excerpt(head, omitted + cut, window[cut..]), text + more, limit)
  {
    hide *;
    var window, budget := tail + more, NewestBudget(next, limit);
    var cut := TailStart(window, budget);
    NewestIsHalf(next, limit);
    TailBytes(window, budget);
    WindowDescribes(head, omitted, tail, text, more, cut);
    CutReachesBack(text + more, window, cut, budget, limit);
    if omitted > 0 { MoreReachesBack(text, more, |text| - |tail|, limit); }
    TracksMade(next, head, omitted + cut, window[cut..], text + more, limit);
  }

  lemma WindowDescribes(head: string, omitted: nat, tail: string, text: string, more: string, cut: nat)
    requires Describes(Excerpt(head, omitted, tail), text) && cut <= |tail + more|
    ensures var window := tail + more;
            && |tail| <= |text| && |window| <= |text + more| && |text + more| - |window| == |text| - |tail|
            && (text + more)[|text + more| - |window|..] == window
            && Describes(Excerpt(head, omitted + cut, window[cut..]), text + more)
  {
    var window := tail + more;
    assert (text + more)[|text| - |tail|..] == text[|text| - |tail|..] + more;
    assert (text + more)[|text| - |tail| + cut..] == window[cut..];
  }

  lemma FirstExtendTracks(whole: string, limit: nat)
    requires limit < Bytes(whole)
    ensures var next := FirstBlockStart(whole, limit);
            var head := HeadEnd(whole, limit);
            var start := Larger(TailStart(whole, NewestBudget(next, limit)), head);
            Tracks(next, Excerpt(whole[..head], start - head, whole[start..]), whole, limit)
  {
    hide *;
    var next := FirstBlockStart(whole, limit);
    var budget, head := NewestBudget(next, limit), HeadEnd(whole, limit);
    var start := Larger(TailStart(whole, budget), head);
    HeadBytes(whole, limit);
    TailBytes(whole, budget);
    NewestIsHalf(next, limit);
    NewestIsAfterHead(whole, budget, limit);
    assert whole[|whole| - |whole[start..]|..] == whole[start..];
    CutReachesBack(whole, whole, start, budget, limit);
    if next.Some? { var at := FirstTracks(whole, limit); }
    TracksMade(next, whole[..head], start - head, whole[start..], whole, limit);
  }

  lemma NewestIsHalf(block: Option<BlockStart>, limit: nat)
    ensures TailBudget(limit) / 2 <= NewestBudget(block, limit) <= TailBudget(limit)
  {
  }

  /** The newest text of a message just beyond the limit does not reach into
      its head. */
  lemma NewestIsAfterHead(whole: string, budget: nat, limit: nat)
    requires limit < Bytes(whole) && budget <= TailBudget(limit)
    ensures HeadEnd(whole, limit) <= TailStart(whole, budget) == Larger(TailStart(whole, budget), HeadEnd(whole, limit))
  {
    hide Bytes, FloorChars, CeilChars;
    var h, t := HeadEnd(whole, limit), TailStart(whole, budget);
    HeadBytes(whole, limit);
    TailBytes(whole, budget);
    if t < h {
      PrefixBytes(whole, t, h);
      BytesSplit(whole, t);
    }
  }

  lemma TracksMade(block: Option<BlockStart>, head: string, omitted: nat, tail: string, text: string, limit: nat)
    requires Describes(Excerpt(head, omitted, tail), text)
    requires Bytes(head) <= HeadBudget(limit) < Bytes(head) + 4 && Bytes(tail) <= NewestBudget(block, limit)
    requires omitted > 0 ==> ReachesBack(text, |text| - |tail|, limit)
    requires block.Some? ==> exists start :: StartsAt(block.value, head, text, start, limit)
    ensures Tracks(block, Excerpt(head, omitted, tail), text, limit)
  {
  }

  // ----- What is shown

  /** Text left out at the end of a message: none, or white space and a whole
      block. */
  ghost predicate IsGone(gone: string) {
    gone == "" || exists i :: 0 <= i <= |gone| && AllWhite(gone[..i]) && BlockEnd(gone[i..]) == Some(Whole)
  }

  /** `shown` describes `text` without its last `removed` bytes, and those are
      a block and the white space before it, or none. */
  ghost predicate ShowsWithout(shown: DetailBlock, removed: nat, text: string) {
    exists n :: 0 <= n <= |text| && Describes(shown, text[..n])
                && removed == Bytes(text[n..]) && IsGone(text[n..])
  }

  /** Taking the block at `start` of `text` and the white space before it. */
  lemma TakesBlock(text: string, start: nat, kept: string)
    requires start < |text| && BlockEnd(text[start..]) == Some(Whole)
    requires kept <= text[..start] && AllWhite(text[|kept|..start])
    ensures IsGone(text[|kept|..])
    ensures Bytes(text[|kept|..]) == Bytes(text[|kept|..start]) + Bytes(text[start..])
  {
    hide Bytes, BlockEnd;
    var gone := text[|kept|..];
    var i := start - |kept|;
    assert gone[..i] == text[|kept|..start] && gone[i..] == text[start..];
    BytesSplit(gone, i);
  }

  lemma TrimTakes(text: string)
    ensures TrimEnd(text) <= text && AllWhite(text[|TrimEnd(text)|..])
    ensures Bytes(text[|TrimEnd(text)|..]) == Bytes(text) - Bytes(TrimEnd(text))
    ensures Bytes(TrimEnd(text)) <= Bytes(text)
  {
    TrimEndSplits(text);
    BytesSplit(text, |TrimEnd(text)|);
    assert text[..|TrimEnd(text)|] == TrimEnd(text);
  }

  /** What stripping a whole block takes off a text. */
  lemma StripTakes(text: string)
    ensures var kept := StripBlock(text, Whole);
            && kept <= text && IsGone(text[|kept|..]) && Bytes(text[|kept|..]) == Bytes(text) - Bytes(kept)
  {
    hide Bytes, BlockEnd, StripBlock;
    var kept := StripBlock(text, Whole);
    var start := StripSplits(text, Whole);
    if kept == text {
      assert text[|kept|..] == "";
    } else {
      TrimTakes(text[..start]);
      assert text[..start][|kept|..] == text[|kept|..start];
      TakesBlock(text, start, kept);
    }
    BytesSplit(text, |kept|);
    assert text[..|kept|] == kept;
  }

  /** A block gone from the end of a suffix is gone from the whole text. */
  lemma ShowsStripped(head: string, omitted: nat, tail: string, text: string)
    requires Describes(Excerpt(head, omitted, tail), text)
    ensures var kept := StripBlock(tail, Whole);
            && Bytes(kept) <= Bytes(tail)
            && ShowsWithout(Excerpt(head, omitted, kept), Bytes(tail) - Bytes(kept), text)
  {
    hide Bytes, StripBlock, IsGone;
    StripTakes(tail);
    var kept := StripBlock(tail, Whole);
    var n := |text| - |tail| + |kept|;
    PrefixIsShorter(tail, kept);
    assert head <= text[..n];
    assert Describes(Excerpt(head, omitted, kept), text[..n]);
  }

  /** A followed block that turned out whole. */
  lemma ShowsWithoutBlock(b: BlockStart, head: string, omitted: nat, tail: string, text: string, limit: nat, start: nat)
    requires Describes(Excerpt(head, omitted, tail), text)
    requires StartsAt(b, head, text, start, limit) && ScanEnd(b.scan) == Some(Whole)
    requires CanShow(Some(b), Excerpt(head, omitted, tail))
    ensures var shown := Shown(Some(b), Excerpt(head, omitted, tail));
            ShowsWithout(shown.0, shown.1, text)
  {
    hide Bytes, BlockEnd, TrimEnd, StripBlock, ShownText, ShownAfter, ShowsWithout, Shown, StartsAt;
    StartIsBlock(b, head, text, start, limit);
    ShownWhole(b, head, omitted, tail);
    match b.before
    case InHead(s) =>
      SamePrefix(head, text, start);
      BoundaryFloor(head, s, start);
      ShowsTrimmed(text, start);
    case After(before, rest) =>
      if before == 0 {
        SameJoin(head, rest, text, start);
        ShowsTrimmed(text, start);
      } else {
        ShowsAfter(head, before, rest, text, start);
      }
  }

  /** A byte that ends a character cuts there. */
  lemma BoundaryFloor(s: string, index: nat, i: nat)
    requires i <= |s| && Bytes(s[..i]) == index
    ensures IsCharBoundary(s, index) && FloorChars(s, index) == i
  {
    if i < |s| {
      assert s[..i + 1][..i] == s[..i];
      BytesSplit(s[..i + 1], i);
    }
    FloorIsUnique(s, index, i);
  }

  lemma SamePrefix(head: string, text: string, n: nat)
    requires head <= text && n <= |head|
    ensures head[..n] == text[..n]
  {
  }

  lemma SameJoin(head: string, rest: string, text: string, start: nat)
    requires head <= text && |head| + |rest| == start <= |text| && text[start - |rest|..start] == rest
    ensures head + rest == text[..start]
  {
    assert head == text[..|head|];
  }

  lemma StartIsBlock(b: BlockStart, head: string, text: string, start: nat, limit: nat)
    requires StartsAt(b, head, text, start, limit) && ScanEnd(b.scan) == Some(Whole)
    ensures start < |text| && BlockEnd(text[start..]) == Some(Whole) && b.scan.len == Bytes(text[start..])
    ensures match b.before
            case InHead(s) => start <= |head| && s == Bytes(text[..start])
            case After(omitted, tail) => |head| + omitted + |tail| == start && text[start - |tail|..start] == tail
  {
    hide Bytes, BlockEnd, IsAlive, HasRead, ScanEnd, Share;
    ScanIsExact(b.scan, text[start..]);
  }

  lemma ShownWhole(b: BlockStart, head: string, omitted: nat, tail: string)
    requires ScanEnd(b.scan) == Some(Whole) && CanShow(Some(b), Excerpt(head, omitted, tail))
    ensures Shown(Some(b), Excerpt(head, omitted, tail)) == ShownBefore(b.before, head, b.scan.len)
  {
    hide Bytes, TrimEnd, StripBlock, ShownBefore, ScanEnd;
  }

  lemma ShowsAfter(head: string, before: nat, rest: string, text: string, start: nat)
    requires head <= text && start < |text| && BlockEnd(text[start..]) == Some(Whole)
    requires |head| + before + |rest| == start && text[start - |rest|..start] == rest
    ensures var shown := ShownAfter(head, before, rest, Bytes(text[start..]));
            ShowsWithout(shown.0, shown.1, text)
  {
    hide Bytes, BlockEnd, TrimEnd, IsGone;
    TrimmedAfter(text, start, rest);
    var n := start - |rest| + |TrimEnd(rest)|;
    assert Describes(Excerpt(head, before, TrimEnd(rest)), text[..n]);
  }

  lemma TrimmedAfter(text: string, start: nat, rest: string)
    requires start < |text| && BlockEnd(text[start..]) == Some(Whole)
    requires |rest| <= start && text[start - |rest|..start] == rest
    ensures var n := start - |rest| + |TrimEnd(rest)|;
            && n <= start && IsGone(text[n..]) && Bytes(TrimEnd(rest)) <= Bytes(rest)
            && Bytes(text[n..]) == Bytes(rest) - Bytes(TrimEnd(rest)) + Bytes(text[start..])
            && text[..n][n - |TrimEnd(rest)|..] == TrimEnd(rest)
  {
    hide Bytes, BlockEnd, IsGone;
    TrimTakes(rest);
    var n := start - |rest| + |TrimEnd(rest)|;
    assert text[n..start] == rest[|TrimEnd(rest)|..];
    TakesBlock(text, start, text[..n]);
  }

  lemma ShowsTrimmed(text: string, start: nat)
    requires start < |text| && BlockEnd(text[start..]) == Some(Whole)
    ensures var shown := ShownText(text[..start], Bytes(text[start..]));
            ShowsWithout(shown.0, shown.1, text)
  {
    hide Bytes, BlockEnd, IsGone, TrimEnd;
    var before := text[..start];
    TrimTakes(before);
    var kept := TrimEnd(before);
    assert text[|kept|..start] == before[|kept|..];
    TakesBlock(text, start, kept);
    assert text[..|kept|] == kept;
  }

  /** What a message shows is the message without a whole block at its end and
      the white space before it: nothing else is left out, and the bytes left
      out are those reported. */
  lemma ShownSplits(block: Option<BlockStart>, raw: DetailBlock, text: string, limit: nat)
    requires Tracks(block, raw, text, limit)
    ensures HeadHolds(block, raw) && CanShow(block, raw)
    ensures ShowsWithout(Shown(block, raw).0, Shown(block, raw).1, text)
  {
    hide Bytes, StartsAt, ScanEnd, StripBlock, IsGone, ShowsWithout;
    match raw
    case TextBlock(_) => TextShown(text);
    case Excerpt(head, omitted, tail) =>
      if block.Some? {
        var start :| StartsAt(block.value, head, text, start, limit);
        HeadStart(block.value, head, text, start, limit);
        if ScanEnd(block.value.scan) == Some(Whole) {
          ShowsWithoutBlock(block.value, head, omitted, tail, text, limit, start);
        }
      }
      ShowsStripped(head, omitted, tail, text);
  }

  /** All of a text but what `omitted` counts: that lies between a head filled
      and a tail that reaches back. */
  ghost predicate KeepsEnough(shown: DetailBlock, text: string, limit: nat) {
    match shown
    case Excerpt(head, omitted, _) =>
      && HeadBudget(limit) < Bytes(head) + 4
      && (omitted > 0 ==> |head| + omitted <= |text| && ReachesBack(text, |head| + omitted, limit))
    case _ => true
  }

  /** And no more is omitted from it than the limit asks for. */
  lemma ShownKeeps(block: Option<BlockStart>, raw: DetailBlock, text: string, limit: nat)
    requires Tracks(block, raw, text, limit)
    ensures KeepsEnough(raw, text, limit)
    ensures CanShow(block, raw) && KeepsEnough(Shown(block, raw).0, text, limit)
  {
    hide Bytes, ScanEnd, StripBlock, HasRead, IsAlive, ReachesBack, TrimEnd, Shown, ShowsWithout;
    ShownSplits(block, raw, text, limit);
    if raw.Excerpt? && block.Some? && ScanEnd(block.value.scan) == Some(Whole) {
      ShownWhole(block.value, raw.head, raw.omitted, raw.tail);
      var start :| StartsAt(block.value, raw.head, text, start, limit);
    } else {
      ShownStripped(block, raw);
    }
  }

  lemma ShownStripped(block: Option<BlockStart>, raw: DetailBlock)
    requires CanShow(block, raw) && !(raw.Excerpt? && block.Some? && ScanEnd(block.value.scan) == Some(Whole))
    ensures var shown := Shown(block, raw).0;
            && (raw.Excerpt? ==> shown.Excerpt? && shown.head == raw.head && shown.omitted == raw.omitted)
            && (raw.TextBlock? ==> shown.TextBlock?)
  {
    hide Bytes, ScanEnd, StripBlock;
  }

  lemma HeadStart(b: BlockStart, head: string, text: string, start: nat, limit: nat)
    requires StartsAt(b, head, text, start, limit) && head <= text
    ensures b.before.InHead? ==> IsCharBoundary(head, b.before.start)
  {
    hide Bytes, HasRead, IsAlive;
    if b.before.InHead? { SamePrefix(head, text, start); }
  }

  lemma TextShown(text: string)
    ensures var kept := StripBlock(text, Whole);
            && Bytes(kept) <= Bytes(text)
            && ShowsWithout(TextBlock(kept), Bytes(text) - Bytes(kept), text)
  {
    hide Bytes, StripBlock, IsGone;
    StripTakes(text);
    PrefixIsShorter(text, StripBlock(text, Whole));
    assert text[..|StripBlock(text, Whole)|] == StripBlock(text, Whole);
  }

  // ----- Any number of chunks

  function ExtendEach(chunks: seq<string>, limit: nat): (Option<BlockStart>, DetailBlock) {
    if chunks == [] then (None, TextBlock(""))
    else
      var (block, known) := ExtendEach(chunks[..|chunks| - 1], limit);
      Extend(block, known, chunks[|chunks| - 1], limit)
  }

  lemma {:induction false} ExtendEachTracks(chunks: seq<string>, limit: nat)
    ensures Tracks(ExtendEach(chunks, limit).0, ExtendEach(chunks, limit).1, Joined(chunks), limit)
  {
    hide Tracks, Extend;
    if chunks == [] {
      NothingTracks(limit);
    } else {
      var (block, known) := ExtendEach(chunks[..|chunks| - 1], limit);
      ExtendEachTracks(chunks[..|chunks| - 1], limit);
      ExtendTracks(block, known, Joined(chunks[..|chunks| - 1]), chunks[|chunks| - 1], limit);
    }
  }

  lemma NothingTracks(limit: nat)
    ensures Tracks(None, TextBlock(""), "", limit)
  {
  }

  /** Bytes a message holds: its detail and the text saved before a block. */
  function HeldBytes(block: Option<BlockStart>, known: DetailBlock): nat {
    BlockSize(known) + (match block
                        case Some(b) => (match b.before case InHead(_) => 0 case After(_, tail) => Bytes(tail))
                        case None => 0)
  }

  /** However a message is chunked: what is shown of it is the message without
      a whole block at its end and the white space before it, the bytes left
      out are the bytes reported, what is held keeps within the limit, and no
      more is omitted than that asks for. */
  lemma StreamedMessageShown(chunks: seq<string>, limit: nat)
    ensures var (block, raw) := ExtendEach(chunks, limit);
            && HeadHolds(block, raw) && CanShow(block, raw)
            && ShowsWithout(Shown(block, raw).0, Shown(block, raw).1, Joined(chunks))
            && Describes(raw, Joined(chunks)) && HeldBytes(block, raw) <= limit
            && KeepsEnough(raw, Joined(chunks), limit) && KeepsEnough(Shown(block, raw).0, Joined(chunks), limit)
  {
    hide Tracks, ExtendEach, ShowsWithout, Shown, Joined, Describes, HeldBytes, KeepsEnough;
    var (block, raw) := ExtendEach(chunks, limit);
    ExtendEachTracks(chunks, limit);
    ShownSplits(block, raw, Joined(chunks), limit);
    ShownKeeps(block, raw, Joined(chunks), limit);
    TracksHolds(block, raw, Joined(chunks), limit);
  }

  lemma TracksHolds(block: Option<BlockStart>, raw: DetailBlock, text: string, limit: nat)
    requires Tracks(block, raw, text, limit)
    ensures Describes(raw, text) && HeldBytes(block, raw) <= limit
  {
    hide Bytes, HasRead, IsAlive;
    if raw.Excerpt? && block.Some? {
      var start :| StartsAt(block.value, raw.head, text, start, limit);
    }
  }

  // ----- The text in place

  /** What tells whether a held block is whole: the message before it and the
      scan of it. */
  datatype HeldBlock = HeldBlock(before: Before, scan: RoutineBlockScan)

  /** `UserText`, besides its segments. */
  class UserText {
    var block: Option<HeldBlock>

    ghost function Repr(): set<object>
      reads this, if block.Some? then {block.value.scan} else {}
    {
      {this} + if block.Some? then block.value.scan.Repr() else {}
    }

    ghost function State(): Option<BlockStart>
      reads this, if block.Some? then {block.value.scan} else {}, Repr()
    {
      match block
      case Some(held) => Some(BlockStart(held.before, held.scan.State()))
      case None => None
    }

    constructor ()
      ensures State() == None && fresh(Repr())
    {
      block := None;
    }

    /** Follows the block held with `more`, or looks for one in `window`. */
    method Follow(omitted: nat, window: string, more: string, limit: nat)
      modifies Repr()
      ensures State() == NextBlockStart(old(State()), omitted, window, more, limit)
      ensures fresh(Repr() - old(Repr()))
    {
      hide LiveStart, Read, IsAlive, TailStart, BeforeOf;
      if block.Some? {
        var scan := block.value.scan;
        scan.Push(more);
        var live := scan.IsLive();
        if !live {
          block := None;
        }
      }
      if block.None? {
        match LiveStart(window)
        case Some(start) =>
          var scan := new RoutineBlockScan();
          scan.Push(window[start..]);
          block := Some(HeldBlock(BeforeOf(window[..start], omitted, Share(limit)), scan));
        case None =>
      }
    }

    /** `extend` */
    method ExtendDetail(known: DetailBlock, more: string, limit: nat) returns (next: DetailBlock)
      modifies Repr()
      ensures (State(), next) == Extend(old(State()), known, more, limit)
      ensures fresh(Repr() - old(Repr()))
    {
      hide LiveStart, Read, IsAlive, TailStart, BeforeOf, HeadEnd, NextBlockStart, Bytes;
      match known
      case TextBlock(text) =>
        var whole := text + more;
        if Bytes(whole) <= limit {
          return TextBlock(whole);
        }
        var head := HeadEnd(whole, limit);
        match LiveStart(whole) {
          case Some(start) =>
            var scan := new RoutineBlockScan();
            scan.Push(whole[start..]);
            block := Some(HeldBlock(
                            if start <= head then InHead(Bytes(whole[..start])) else BeforeOf(whole[head..start], 0, Share(limit)),
                            scan));
          case None =>
            block := None;
        }
        var budget := if block.Some? then TailBudget(limit) - TailBudget(limit) / 2 else TailBudget(limit);
        var start := Larger(TailStart(whole, budget), head);
        next := Excerpt(whole[..head], start - head, whole[start..]);
      case Excerpt(head, omitted, tail) =>
        var window := tail + more;
        Follow(omitted, window, more, limit);
        var budget := if block.Some? then TailBudget(limit) - TailBudget(limit) / 2 else TailBudget(limit);
        var cut := TailStart(window, budget);
        next := Excerpt(head, omitted + cut, window[cut..]);
      case Diff(_, _, _) => next := known;
      case Terminal(_) => next := known;
    }

    /** `release`: drops what only the detail needs. */
    method Release()
      modifies this
      ensures State() == None
    {
      block := None;
    }
  }
}
