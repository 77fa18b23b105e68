/** Item detail within its bound: `excerpt`, `extend_text` and
    `bounded_detail` of `projection.rs`. */
module DetailText {
  import opened Text

  /** Content of an item. `Excerpt` is text beyond the bound: its head and
      tail, and how many characters were omitted between them. */
  datatype DetailBlock =
    | TextBlock(text: string)
    | Excerpt(head: string, omitted: nat, tail: string)
    | Diff(path: string, oldText: Option<string>, newText: string)
    | Terminal(id: string)

  function BlockSize(block: DetailBlock): nat {
    match block
    case TextBlock(text) => Bytes(text)
    case Excerpt(head, _, tail) => Bytes(head) + Bytes(tail)
    case Diff(path, oldText, newText) => Bytes(path) + Bytes(oldText.UnwrapOr("")) + Bytes(newText)
    case Terminal(id) => Bytes(id)
  }

  function HeadBudget(limit: nat): nat {
    limit / 2
  }

  function TailBudget(limit: nat): nat {
    limit - HeadBudget(limit)
  }

  function SaturatingSub(x: nat, y: nat): nat {
    if x < y then 0 else x - y
  }

  /** Characters of the head of a text beyond `limit`. */
  function HeadEnd(text: string, limit: nat): (h: nat)
    ensures h <= |text|
  {
    FloorChars(text, HeadBudget(limit))
  }

  /** Where the last `budget` bytes of a text start, in whole characters. */
  function TailStart(text: string, budget: nat): (t: nat)
    ensures t <= |text|
  {
    CeilChars(text, SaturatingSub(Bytes(text), budget))
  }

  lemma HeadBeforeTail(text: string, limit: nat)
    requires limit < Bytes(text)
    ensures HeadEnd(text, limit) <= TailStart(text, TailBudget(limit))
  {
    var h, t := HeadEnd(text, limit), TailStart(text, TailBudget(limit));
    if t < h { PrefixBytes(text, t, h); }
  }

  /** `excerpt` */
  function ExcerptOf(text: string, limit: nat): DetailBlock {
    if Bytes(text) <= limit then TextBlock(text)
    else
      HeadBeforeTail(text, limit);
      var h, t := HeadEnd(text, limit), TailStart(text, TailBudget(limit));
      Excerpt(text[..h], t - h, text[t..])
  }

  /** `extend_text` */
  function ExtendText(block: DetailBlock, more: string, limit: nat): DetailBlock {
    match block
    case TextBlock(text) => ExcerptOf(text + more, limit)
    case Excerpt(head, omitted, tail) =>
      var window := tail + more;
      var cut := TailStart(window, TailBudget(limit));
      Excerpt(head, omitted + cut, window[cut..])
    case Diff(_, _, _) => block
    case Terminal(_) => block
  }

  function ExtendAll(chunks: seq<string>, limit: nat): DetailBlock {
    if chunks == [] then TextBlock("")
    else ExtendText(ExtendAll(chunks[..|chunks| - 1], limit), chunks[|chunks| - 1], limit)
  }

  // ----- What a bounded text says of the whole

  /** `block` is `text`, or its head, its tail and the number of characters
      between them. */
  ghost predicate Describes(block: DetailBlock, text: string) {
    match block
    case TextBlock(t) => t == text
    case Excerpt(head, omitted, tail) =>
      && head <= text && |tail| <= |text| && text[|text| - |tail|..] == tail
      && |head| + omitted + |tail| == |text|
    case Diff(_, _, _) => false
    case Terminal(_) => false
  }

  lemma TailBytes(text: string, budget: nat)
    ensures Bytes(text[TailStart(text, budget)..]) <= budget
    ensures Bytes(text) <= budget ==> TailStart(text, budget) == 0
    ensures budget <= Bytes(text) ==> budget < Bytes(text[TailStart(text, budget)..]) + 4
  {
    var t := TailStart(text, budget);
    BytesSplit(text, t);
    if t > 0 {
      BytesSplit(text, t - 1);
      assert text[t - 1..] == [text[t - 1]] + text[t..];
      BytesConcat([text[t - 1]], text[t..]);
    }
  }

  /** An excerpt keeps within its bound, half for the head and the rest for the
      tail, each filled, splits no character and loses count of none. */
  lemma ExcerptDescribes(text: string, limit: nat)
    ensures Describes(ExcerptOf(text, limit), text) && BlockSize(ExcerptOf(text, limit)) <= limit
    ensures limit < Bytes(text) ==>
              && limit < BlockSize(ExcerptOf(text, limit)) + 8 && ExcerptOf(text, limit).Excerpt?
              && Bytes(ExcerptOf(text, limit).head) <= limit / 2 < Bytes(ExcerptOf(text, limit).head) + 4
              && Bytes(ExcerptOf(text, limit).tail) <= limit - limit / 2 < Bytes(ExcerptOf(text, limit).tail) + 4
  {
    hide Bytes, CeilChars, FloorChars;
    if limit < Bytes(text) {
      HeadBeforeTail(text, limit);
      TailBytes(text, TailBudget(limit));
      HeadBytes(text, limit);
    }
  }

  lemma HeadBytes(text: string, limit: nat)
    requires limit < Bytes(text)
    ensures Bytes(text[..HeadEnd(text, limit)]) <= HeadBudget(limit) < Bytes(text[..HeadEnd(text, limit)]) + 4
    ensures HeadEnd(text, limit) < |text|
  {
    hide Bytes, FloorChars;
    var h := HeadEnd(text, limit);
    assert text[..|text|] == text;
    if h < |text| { WidthBetween(text, h); }
  }

  // ----- Streaming

  /** More text leaves the head of a text beyond the bound as it was. */
  lemma HeadStays(text: string, more: string, limit: nat)
    requires limit < Bytes(text)
    ensures HeadEnd(text + more, limit) == HeadEnd(text, limit)
    ensures (text + more)[..HeadEnd(text, limit)] == text[..HeadEnd(text, limit)]
  {
    hide Bytes, FloorChars;
    var h := HeadEnd(text, limit);
    HeadBytes(text, limit);
    assert (text + more)[..h] == text[..h] && (text + more)[..h + 1] == text[..h + 1];
    FloorIsUnique(text + more, HeadBudget(limit), h);
  }

  /** `t` starts the last `budget` bytes: all of the text when it is shorter,
      else the first boundary not before them. */
  ghost predicate StartsTail(text: string, budget: nat, t: nat) {
    && t <= |text|
    && Bytes(text) <= Bytes(text[..t]) + budget
    && (t > 0 ==> Bytes(text[..t - 1]) + budget < Bytes(text))
  }

  lemma TailStartIs(text: string, budget: nat, t: nat)
    ensures StartsTail(text, budget, t) <==> t == TailStart(text, budget)
  {
    hide Bytes, CeilChars;
    if StartsTail(text, budget, t) {
      CeilIsUnique(text, SaturatingSub(Bytes(text), budget), t);
    }
  }

  lemma TailJoins(lost: string, window: string, budget: nat, c: nat)
    requires StartsTail(window, budget, c)
    requires c == 0 && lost != "" ==> Bytes(lost[..|lost| - 1]) + budget < Bytes(lost + window)
    ensures StartsTail(lost + window, budget, |lost| + c)
  {
    hide Bytes;
    BytesConcat(lost, window);
    PrefixPastBytes(lost, window, c);
    if c > 0 {
      PrefixPastBytes(lost, window, c - 1);
    } else if lost != "" {
      PrefixInBytes(lost, window, |lost| - 1);
    }
  }

  /** The tail of a longer text is the tail of the last tail and what came
      after it, also when rounding to a whole character had shortened it. */
  lemma TailMoves(text: string, more: string, budget: nat)
    ensures var t := TailStart(text, budget);
            TailStart(text + more, budget) == t + TailStart(text[t..] + more, budget)
  {
    hide Bytes, TailStart;
    var t := TailStart(text, budget);
    var window := text[t..] + more;
    var c := TailStart(window, budget);
    TailStartIs(text, budget, t);
    TailStartIs(window, budget, c);
    BytesConcat(text, more);
    assert text + more == text[..t] + window;
    assert t > 0 ==> text[..t][..t - 1] == text[..t - 1];
    TailJoins(text[..t], window, budget, c);
    TailStartIs(text + more, budget, t + c);
  }

  lemma ExtendKeeps(text: string, more: string, limit: nat)
    ensures ExtendText(ExcerptOf(text, limit), more, limit) == ExcerptOf(text + more, limit)
  {
    hide Bytes, CeilChars, FloorChars, TailStart, HeadEnd;
    BytesConcat(text, more);
    if limit < Bytes(text) {
      HeadBeforeTail(text, limit);
      HeadBeforeTail(text + more, limit);
      HeadStays(text, more, limit);
      TailMoves(text, more, TailBudget(limit));
      var t := TailStart(text, TailBudget(limit));
      var c := TailStart(text[t..] + more, TailBudget(limit));
      assert (text[t..] + more)[c..] == (text + more)[t + c..];
    }
  }

  /** However a text arrives, what is kept of it is the excerpt of the whole. */
  lemma {:induction false} StreamingIsExcerpt(chunks: seq<string>, limit: nat)
    ensures ExtendAll(chunks, limit) == ExcerptOf(Joined(chunks), limit)
  {
    hide ExcerptOf, ExtendText;
    if chunks == [] {
      ExcerptOfNothing(limit);
    } else {
      StreamingIsExcerpt(chunks[..|chunks| - 1], limit);
      ExtendKeeps(Joined(chunks[..|chunks| - 1]), chunks[|chunks| - 1], limit);
    }
  }

  lemma ExcerptOfNothing(limit: nat)
    ensures ExcerptOf("", limit) == TextBlock("")
  {
  }

  // ----- Detail of several blocks

  datatype BoundedResult = Kept(blocks: seq<DetailBlock>, size: nat) | TooLarge

  function TotalSize(blocks: seq<DetailBlock>): nat {
    if blocks == [] then 0 else TotalSize(blocks[..|blocks| - 1]) + BlockSize(blocks[|blocks| - 1])
  }

  function Texts(blocks: seq<DetailBlock>): seq<string> {
    if blocks == [] then []
    else Texts(blocks[..|blocks| - 1]) + (match blocks[|blocks| - 1] case TextBlock(text) => [text] case _ => [])
  }

  function Terminals(blocks: seq<DetailBlock>): seq<DetailBlock> {
    if blocks == [] then []
    else Terminals(blocks[..|blocks| - 1]) + (if blocks[|blocks| - 1].Terminal? then [blocks[|blocks| - 1]] else [])
  }

  predicate Excerptable(blocks: seq<DetailBlock>) {
    forall i :: 0 <= i < |blocks| ==> blocks[i].TextBlock? || blocks[i].Terminal?
  }

  /** `texts.join("\n")` */
  function JoinLines(texts: seq<string>): string {
    if texts == [] then "" else if |texts| == 1 then texts[0]
    else JoinLines(texts[..|texts| - 1]) + "\n" + texts[|texts| - 1]
  }

  lemma {:induction false} TotalSizeJoins(a: seq<DetailBlock>, b: seq<DetailBlock>)
    ensures TotalSize(a + b) == TotalSize(a) + TotalSize(b)
  {
    if b == [] {
      assert a + b == a;
    } else {
      assert (a + b)[..|a + b| - 1] == a + b[..|b| - 1];
      TotalSizeJoins(a, b[..|b| - 1]);
    }
  }

  /** `bounded_detail` */
  function BoundedBlocks(blocks: seq<DetailBlock>, limit: nat): BoundedResult {
    if TotalSize(blocks) <= limit then Kept(blocks, TotalSize(blocks))
    else
      var budget := SaturatingSub(limit, TotalSize(Terminals(blocks)));
      if !Excerptable(blocks) || Texts(blocks) == [] || budget == 0 then TooLarge
      else
        var kept := [ExcerptOf(JoinLines(Texts(blocks)), budget)] + Terminals(blocks);
        Kept(kept, TotalSize(kept))
  }

  /** Detail is unchanged within the bound; beyond it, it is refused, or its
      text becomes one excerpt that leaves room for the terminals. Either way
      what is kept has the size stated and is within the bound. */
  lemma BoundedIsWithin(blocks: seq<DetailBlock>, limit: nat)
    ensures match BoundedBlocks(blocks, limit)
            case TooLarge => limit < TotalSize(blocks)
            case Kept(kept, size) =>
              && size == TotalSize(kept) <= limit
              && (TotalSize(blocks) <= limit ==> kept == blocks)
              && (limit < TotalSize(blocks) ==>
                    kept != [] && Describes(kept[0], JoinLines(Texts(blocks))) && kept[1..] == Terminals(blocks))
  {
    hide ExcerptOf, JoinLines, BlockSize, Describes, Texts, Terminals;
    if limit < TotalSize(blocks) {
      var budget := SaturatingSub(limit, TotalSize(Terminals(blocks)));
      var text := ExcerptOf(JoinLines(Texts(blocks)), budget);
      ExcerptDescribes(JoinLines(Texts(blocks)), budget);
      TotalSizeJoins([text], Terminals(blocks));
    }
  }

  // ----- Exactly what is refused

  /** Bytes of the terminals among `blocks`. */
  ghost function TerminalBytes(blocks: seq<DetailBlock>): nat {
    if blocks == [] then 0
    else (if blocks[0].Terminal? then BlockSize(blocks[0]) else 0) + TerminalBytes(blocks[1..])
  }

  /** The texts among `blocks` in order, each after the first on a new line. */
  ghost function Lines(blocks: seq<DetailBlock>): string {
    if blocks == [] then ""
    else if !blocks[0].TextBlock? then Lines(blocks[1..])
    else if HasText(blocks[1..]) then blocks[0].text + "\n" + Lines(blocks[1..])
    else blocks[0].text
  }

  predicate HasText(blocks: seq<DetailBlock>) {
    exists i :: 0 <= i < |blocks| && blocks[i].TextBlock?
  }

  lemma {:induction false} TextsConcat(a: seq<DetailBlock>, b: seq<DetailBlock>)
    ensures Texts(a + b) == Texts(a) + Texts(b) && Terminals(a + b) == Terminals(a) + Terminals(b)
  {
    if b == [] {
      assert a + b == a;
    } else {
      assert (a + b)[..|a + b| - 1] == a + b[..|b| - 1];
      TextsConcat(a, b[..|b| - 1]);
    }
  }

  lemma {:induction false} JoinFirst(first: string, rest: seq<string>)
    requires rest != []
    ensures JoinLines([first] + rest) == first + "\n" + JoinLines(rest)
  {
    var n := |rest| - 1;
    if n == 0 {
      assert ([first] + rest)[..1] == [first];
    } else {
      assert ([first] + rest)[..n + 1] == [first] + rest[..n];
      JoinFirst(first, rest[..n]);
    }
  }

  lemma OneBlock(block: DetailBlock)
    ensures Texts([block]) == if block.TextBlock? then [block.text] else []
    ensures Terminals([block]) == if block.Terminal? then [block] else []
    ensures TotalSize([block]) == BlockSize(block)
  {
    hide Bytes, BlockSize;
    assert [block][..0] == [];
    assert Texts([]) == [] && Terminals([]) == [] && TotalSize([]) == 0;
  }

  lemma {:induction false} LinesAre(blocks: seq<DetailBlock>)
    ensures JoinLines(Texts(blocks)) == Lines(blocks) && TotalSize(Terminals(blocks)) == TerminalBytes(blocks)
    ensures Texts(blocks) == [] <==> !HasText(blocks)
    ensures Excerptable(blocks) ==> TotalSize(blocks) <= Bytes(Lines(blocks)) + TerminalBytes(blocks)
  {
    hide JoinLines, Texts, Terminals, TotalSize, Bytes, BlockSize;
    if blocks == [] {
      NoBlocks();
    } else {
      var first, rest := blocks[0], blocks[1..];
      assert blocks == [first] + rest;
      LinesAre(rest);
      TextsConcat([first], rest);
      TotalSizeJoins([first], rest);
      TotalSizeJoins(Terminals([first]), Terminals(rest));
      OneBlock(first);
      NoBlocks();
      FirstLine(blocks);
      if !first.TextBlock? {
        assert [] + Texts(rest) == Texts(rest);
      } else if HasText(rest) {
        JoinFirst(first.text, Texts(rest));
      } else {
        JoinOne(first.text);
        assert [first.text] + [] == [first.text];
      }
    }
  }

  lemma NoBlocks()
    ensures JoinLines([]) == "" && Texts([]) == [] && Terminals([]) == [] && TotalSize([]) == 0 && Bytes("") == 0
  {
  }

  lemma JoinOne(text: string)
    ensures JoinLines([text]) == text
  {
  }

  lemma FirstLine(blocks: seq<DetailBlock>)
    requires blocks != []
    ensures HasText(blocks) <==> blocks[0].TextBlock? || HasText(blocks[1..])
    ensures Excerptable(blocks) ==> Excerptable(blocks[1..])
    ensures blocks[0].TextBlock? ==> BlockSize(blocks[0]) + (if HasText(blocks[1..]) then Bytes(Lines(blocks[1..])) else 0)
                                       <= Bytes(Lines(blocks))
    ensures !HasText(blocks[1..]) ==> Lines(blocks[1..]) == ""
  {
    hide Bytes;
    if HasText(blocks[1..]) {
      var i :| 0 <= i < |blocks| - 1 && blocks[1..][i].TextBlock?;
      assert blocks[i + 1].TextBlock?;
    }
    if HasText(blocks) && !blocks[0].TextBlock? {
      var i :| 0 <= i < |blocks| && blocks[i].TextBlock?;
      assert blocks[1..][i - 1].TextBlock?;
    }
    if !HasText(blocks[1..]) { NoLines(blocks[1..]); }
    if blocks[0].TextBlock? && HasText(blocks[1..]) {
      BytesConcat(blocks[0].text + "\n", Lines(blocks[1..]));
      BytesConcat(blocks[0].text, "\n");
    }
  }

  lemma {:induction false} NoLines(blocks: seq<DetailBlock>)
    requires !HasText(blocks)
    ensures Lines(blocks) == ""
  {
    if blocks != [] {
      forall i | 0 <= i < |blocks| - 1 ensures !blocks[1..][i].TextBlock? {
        assert blocks[1..][i] == blocks[i + 1];
      }
      NoLines(blocks[1..]);
    }
  }

  /** Detail is refused exactly when it is over the limit and some block is
      neither text nor a terminal, or none is text, or the terminals leave the
      text no room. Otherwise, beyond the limit, its texts by lines become one
      excerpt before the terminals that leaves fewer than 8 bytes unused. */
  lemma BoundedExactly(blocks: seq<DetailBlock>, limit: nat)
    ensures BoundedBlocks(blocks, limit).TooLarge? <==>
              && limit < TotalSize(blocks)
              && (|| (exists i :: 0 <= i < |blocks| && !blocks[i].TextBlock? && !blocks[i].Terminal?)
                  || !HasText(blocks) || limit <= TerminalBytes(blocks))
    ensures match BoundedBlocks(blocks, limit)
            case Kept(kept, size) =>
              limit < TotalSize(blocks) ==>
                && limit < size + 8 && kept != [] && kept[0].Excerpt? && Describes(kept[0], Lines(blocks))
                && |kept[1..]| <= |blocks| && TotalSize(kept[1..]) == TerminalBytes(blocks)
                && forall i :: 0 < i < |kept| ==> kept[i].Terminal? && kept[i] in blocks
            case TooLarge => true
  {
    hide ExcerptOf, JoinLines, BlockSize, Describes, Texts, Terminals, Bytes, HasText, Lines, TotalSize;
    LinesAre(blocks);
    if limit < TotalSize(blocks) && Excerptable(blocks) && HasText(blocks) && TerminalBytes(blocks) < limit {
      var budget := limit - TerminalBytes(blocks);
      var text := ExcerptOf(Lines(blocks), budget);
      ExcerptDescribes(Lines(blocks), budget);
      IsExcerpt(Lines(blocks), budget);
      TotalSizeJoins([text], Terminals(blocks));
      OneBlock(text);
      TerminalsAre(blocks);
      assert ([text] + Terminals(blocks))[1..] == Terminals(blocks);
    }
  }

  lemma IsExcerpt(text: string, limit: nat)
    requires limit < Bytes(text)
    ensures ExcerptOf(text, limit).Excerpt?
  {
  }

  lemma {:induction false} TerminalsAre(blocks: seq<DetailBlock>)
    ensures |Terminals(blocks)| <= |blocks|
    ensures forall i :: 0 <= i < |Terminals(blocks)| ==> Terminals(blocks)[i].Terminal? && Terminals(blocks)[i] in blocks
  {
    if blocks != [] {
      TerminalsAre(blocks[..|blocks| - 1]);
      forall i | 0 <= i < |Terminals(blocks)| ensures Terminals(blocks)[i].Terminal? && Terminals(blocks)[i] in blocks {
        if i < |Terminals(blocks[..|blocks| - 1])| { assert Terminals(blocks[..|blocks| - 1])[i] in blocks[..|blocks| - 1]; }
      }
    }
  }

  lemma OneMoreBlock(blocks: seq<DetailBlock>, i: nat)
    requires i < |blocks|
    ensures var block := blocks[i];
            && Texts(blocks[..i + 1]) == Texts(blocks[..i]) + (if block.TextBlock? then [block.text] else [])
            && Terminals(blocks[..i + 1]) == Terminals(blocks[..i]) + (if block.Terminal? then [block] else [])
            && (Excerptable(blocks[..i]) && (block.TextBlock? || block.Terminal?) ==> Excerptable(blocks[..i + 1]))
            && (!block.TextBlock? && !block.Terminal? ==> !Excerptable(blocks))
  {
    assert blocks[..i + 1][..i] == blocks[..i];
  }

  method BoundDetail(blocks: seq<DetailBlock>, limit: nat) returns (r: BoundedResult)
    ensures r == BoundedBlocks(blocks, limit)
  {
    hide ExcerptOf, JoinLines, BlockSize, TotalSize, Texts, Terminals, Excerptable;
    var size := TotalSize(blocks);
    if size <= limit {
      return Kept(blocks, size);
    }
    var texts, terminals := [], [];
    NothingBounded(blocks);
    for i := 0 to |blocks|
      invariant Excerptable(blocks[..i]) && texts == Texts(blocks[..i]) && terminals == Terminals(blocks[..i])
    {
      OneMoreBlock(blocks, i);
      match blocks[i]
      case TextBlock(text) => texts := texts + [text];
      case Terminal(_) => terminals := terminals + [blocks[i]];
      case _ => return TooLarge;
    }
    assert blocks[..|blocks|] == blocks;
    var budget := SaturatingSub(limit, TotalSize(terminals));
    if texts == [] || budget == 0 {
      return TooLarge;
    }
    var kept := [ExcerptOf(JoinLines(texts), budget)] + terminals;
    r := Kept(kept, TotalSize(kept));
  }

  lemma NothingBounded(blocks: seq<DetailBlock>)
    ensures Excerptable(blocks[..0]) && Texts(blocks[..0]) == [] && Terminals(blocks[..0]) == []
  {
  }
}
