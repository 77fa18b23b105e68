/** A launch's prompt stripped again: of its whole block, and of one cut
    short anywhere. */
module RoutineRoundTrip {
  import opened Text
  import opened RoutineBlock
  import opened ContextScan
  import opened BlockScan
  import opened RoutinePrompt

  lemma BlockIsSealed(launch: Launch)
    ensures IsSealed(Block(launch))
  {
    hide OwnerValue, Contains, OWNER_MARKER, MARKER_END, EVENT_CONTEXT_OPEN, EVENT_CONTEXT_CLOSE;
    var block := Block(launch);
    match launch.eventContext
    case None =>
      assert block == (OWNER_MARKER + OwnerValue(launch)) + MARKER_END;
    case Some(text) =>
      var before := OWNER_MARKER + (OwnerValue(launch) + MARKER_END + "\n");
      assert block == before + EVENT_CONTEXT_OPEN + (text + EVENT_CONTEXT_CLOSE);
      assert block[|before|..|before| + |EVENT_CONTEXT_OPEN|] == EVENT_CONTEXT_OPEN;
      AtContains(block, EVENT_CONTEXT_OPEN, |before|);
  }

  /** The instruction ends in no white space, so nothing is left of it to
      trim before the block. */
  lemma TrimIsTrimmed(s: string)
    ensures IsTrimmed(Trim(s)) && TrimEnd(Trim(s)) == Trim(s)
  {
    hide TrimStart, TrimEnd;
    TrimStartSplits(TrimEnd(s));
    var t := Trim(s);
    assert t == "" || t[|t| - 1] == TrimEnd(s)[|TrimEnd(s)| - 1];
    TrimEndIsUnique(t, t);
  }

  lemma BeforeBlockTrims(launch: Launch)
    ensures TrimEnd(BeforeBlock(launch)) == Trim(launch.instruction)
  {
    hide Trim, TrimEnd;
    var t := Trim(launch.instruction);
    TrimIsTrimmed(launch.instruction);
    TrimEndMore(t, GAP);
    AllWhiteTrims(GAP);
    AllWhiteTrims("");
  }

  lemma BlockPlace(launch: Launch, text: string)
    requires BeforeBlock(launch) <= text
    ensures IsPlace(text, |BeforeBlock(launch)|)
  {
    hide Trim;
    var before := BeforeBlock(launch);
    if before != "" { assert before[|before| - 1] == '\n'; }
  }

  /** A marker before the block starts within the instruction. */
  lemma EarlierMarkers(launch: Launch, s: nat)
    requires At(Prompt(launch), OWNER_MARKER, s) && s < |BeforeBlock(launch)|
    ensures BlockEnd(Prompt(launch)[s..]) != Some(Whole)
  {
    hide Trim, BlockEnd, Block, IsTag, At, IsSealed, IsTrimmed, OWNER_MARKER;
    OwnerTag();
    var t := Trim(launch.instruction);
    var text := Prompt(launch);
    OccurrenceStarts(text, OWNER_MARKER, s);
    assert text == t + (GAP + Block(launch));
    assert text[|t|] == '\n' && text[|t| + 1] == '\n';
    assert text[s..] == t[s..] + (GAP + Block(launch));
    TrimIsTrimmed(launch.instruction);
    DropTrimmed(t, s);
    BlockIsSealed(launch);
    LookalikeIsNotWhole(t[s..], Block(launch));
  }

  lemma DropTrimmed(t: string, s: nat)
    requires IsTrimmed(t) && s <= |t|
    ensures IsTrimmed(t[s..])
  {
  }

  lemma MarkerStartsBlock(launch: Launch)
    ensures At(Prompt(launch), OWNER_MARKER, |BeforeBlock(launch)|)
    ensures Prompt(launch)[|BeforeBlock(launch)|..] == Block(launch)
    ensures BeforeBlock(launch) <= Prompt(launch) && Prompt(launch)[..|BeforeBlock(launch)|] == BeforeBlock(launch)
  {
    hide Trim, BeforeBlock, OwnerValue, ContextTail, OWNER_MARKER, MARKER_END;
    var before, rest := BeforeBlock(launch), OwnerValue(launch) + MARKER_END + ContextTail(launch.eventContext);
    assert Prompt(launch) == before + OWNER_MARKER + rest;
  }

  /** Whatever the launch holds, stripping its prompt leaves its instruction,
      trimmed, exactly when the block it printed is recognised as whole. */
  lemma StripsExactlyWholeBlocks(launch: Launch)
    ensures StripBlock(Prompt(launch), Whole) == Trim(launch.instruction) <==> BlockEnd(Block(launch)) == Some(Whole)
  {
    hide Trim, TrimEnd, BlockEnd, Block, At, OWNER_MARKER, BeforeBlock, IsPlace, StripBlock, Prompt;
    var text, start := Prompt(launch), |BeforeBlock(launch)|;
    MarkerStartsBlock(launch);
    BeforeBlockTrims(launch);
    BlockPlace(launch, text);
    forall s: nat | s < start && At(text, OWNER_MARKER, s) ensures !IsBlock(text, s, Whole) {
      EarlierMarkers(launch, s);
    }
    if BlockEnd(Block(launch)) == Some(Whole) {
      StripsWhole(text, Whole, start);
    } else {
      StripsElsewhere(launch);
    }
  }

  /** Without a whole block at its place, the text stripped is another one. */
  lemma StripsElsewhere(launch: Launch)
    requires BlockEnd(Block(launch)) != Some(Whole)
    ensures StripBlock(Prompt(launch), Whole) != Trim(launch.instruction)
  {
    hide Trim, TrimEnd, BlockEnd, Block, At, OWNER_MARKER, BeforeBlock, BlockStarts;
    var text, before := Prompt(launch), BeforeBlock(launch);
    MarkerStartsBlock(launch);
    BlockLonger(launch);
    var starts := BlockStarts(text, false);
    match FirstBlock(text, starts, Whole)
    case None =>
    case Some(s) =>
      StartsAtMarker(text, s);
      if s < |before| {
        EarlierMarkers(launch, s);
      } else {
        StripsMore(launch, s);
      }
  }

  lemma StartsAtMarker(text: string, s: nat)
    requires s in BlockStarts(text, false)
    ensures At(text, OWNER_MARKER, s) && s <= |text|
  {
    hide At, BlockStarts, CutMarker;
    BlockStartsIncrease(text, false);
    StartsBefore(text, false, s);
  }

  lemma BlockLonger(launch: Launch)
    ensures |Trim(launch.instruction)| < |Prompt(launch)|
    ensures |Trim(launch.instruction)| <= |BeforeBlock(launch)|
  {
    hide Trim, OwnerValue, ContextTail;
  }

  /** Past the block's place more is left than the instruction. */
  lemma StripsMore(launch: Launch, s: nat)
    requires |BeforeBlock(launch)| <= s <= |Prompt(launch)| && s != |BeforeBlock(launch)|
    ensures TrimEnd(Prompt(launch)[..s]) != Trim(launch.instruction)
  {
    hide Trim, TrimEnd, Block, BeforeBlock;
    var before := BeforeBlock(launch);
    var text := Prompt(launch);
    BlockStartsText(launch);
    var kept := text[|before|..s];
    assert text[..s] == before + kept;
    assert kept[0] == Block(launch)[0];
    FirstIsText(kept);
    TrimEndMore(before, kept);
    BlockLonger(launch);
  }

  lemma BlockStartsText(launch: Launch)
    ensures Block(launch) != "" && !IsWhite(Block(launch)[0])
  {
    hide OwnerValue, ContextTail;
    OwnerTag();
  }

  /** When a printed block is recognised, in terms of what was printed. */
  lemma BlockIsWhole(launch: Launch)
    requires !Contains(OwnerValue(launch), MARKER_END)
    ensures BlockEnd(Block(launch)) == Some(Whole) <==> IsPrintable(launch)
  {
    hide Contains, RoutineMarker, IsOwner, OwnerValue, Pushed, AfterOwner;
    OwnerValueRead(launch);
    if '\n' !in OwnerValue(launch) && IsOwner(OwnerValue(launch)) {
      match launch.eventContext
      case None => NoContextIsWhole(launch);
      case Some(text) => ContextIsWhole(launch);
    }
  }

  lemma NoContextIsWhole(launch: Launch)
    requires launch.eventContext.None?
    ensures AfterOwner(Block(launch), TrimStart("")) ==
              if Bytes(OWNER_MARKER + (OwnerValue(launch) + MARKER_END + "")) <= MARKERS_LIMIT then Ended(Some(Whole))
              else Ended(None)
  {
    hide OwnerValue, Bytes, OWNER_MARKER, MARKER_END;
    LaunchTag();
    NothingIsAbsent();
  }

  lemma NothingIsAbsent()
    ensures RoutineMarker("", LAUNCH_MARKER, IsLaunch) == Absent
  {
    LaunchTag();
    TagFacts(LAUNCH_MARKER);
    AsciiBytes(LAUNCH_MARKER);
  }

  lemma ContextIsWhole(launch: Launch)
    requires launch.eventContext.Some?
    ensures var tail := ContextTail(launch.eventContext);
            var start := OWNER_MARKER + (OwnerValue(launch) + MARKER_END + ContextStart(launch.eventContext));
            && |TrimStart(tail)| <= |Block(launch)|
            && AfterOwner(Block(launch), TrimStart(tail)) ==
                 (if Bytes(start) <= MARKERS_LIMIT then Context(|start|) else Ended(None))
            && |start| <= |Block(launch)|
            && Block(launch)[|start|..] == launch.eventContext.value + EVENT_CONTEXT_CLOSE
            && (ContextEnd(Pushed(FRESH, Block(launch)[|start|..])) == Some(Whole) <==>
                  !Contains(launch.eventContext.value, EVENT_CONTEXT_OPEN)
                  && !Contains(launch.eventContext.value, EVENT_CONTEXT_CLOSE))
  {
    hide OwnerValue, Bytes, Pushed, Contains, RoutineMarker, AfterMarkers;
    hide OWNER_MARKER, MARKER_END, EVENT_CONTEXT_OPEN, EVENT_CONTEXT_CLOSE, MARKERS_LIMIT;
    var text := launch.eventContext.value;
    var shown := EVENT_CONTEXT_OPEN + (text + EVENT_CONTEXT_CLOSE);
    var tail := ContextTail(launch.eventContext);
    assert tail == "\n" + shown;
    OpenStarts(text);
    TrimStartIsUnique("\n", shown);
    OpenIsNoLaunch(shown);
    var start := OWNER_MARKER + (OwnerValue(launch) + MARKER_END + ContextStart(launch.eventContext));
    assert Block(launch) == start + (text + EVENT_CONTEXT_CLOSE);
    OpenedContext(start, EVENT_CONTEXT_OPEN + (text + EVENT_CONTEXT_CLOSE), text + EVENT_CONTEXT_CLOSE);
    PrintedContext(text);
  }

  lemma OpenStarts(text: string)
    ensures var shown := EVENT_CONTEXT_OPEN + (text + EVENT_CONTEXT_CLOSE);
            shown != "" && !IsWhite(shown[0])
  {
    OpenTag();
  }

  /** The context starts where its opening tag ends. */
  lemma OpenedContext(start: string, rest: string, context: string)
    requires rest == EVENT_CONTEXT_OPEN + context && |EVENT_CONTEXT_OPEN| <= |start|
    ensures |rest| <= |start + context|
    ensures AfterMarkers(start + context, rest) ==
              if Bytes(start) <= MARKERS_LIMIT then Context(|start|) else Ended(None)
  {
    hide Bytes, TrimEnd, EVENT_CONTEXT_OPEN, MARKERS_LIMIT;
    OpenIsText(rest);
    assert (start + context)[..|start|] == start;
  }

  /** For an owner value without the end of a marker, the prompt of a launch
      is stripped back to its instruction exactly when the launch is
      printable, whatever lookalikes the instruction holds. */
  lemma PrintThenStrip(launch: Launch)
    requires !Contains(OwnerValue(launch), MARKER_END)
    ensures StripBlock(Prompt(launch), Whole) == Trim(launch.instruction) <==> IsPrintable(launch)
  {
    hide *;
    StripsExactlyWholeBlocks(launch);
    BlockIsWhole(launch);
  }

  // ----- Cut short

  /** Neither the instruction nor what the block carries holds an owner marker. */
  predicate HoldsNoMarker(launch: Launch) {
    && !Contains(Trim(launch.instruction), OWNER_MARKER)
    && !Contains(OwnerValue(launch), OWNER_MARKER)
    && !Contains(launch.eventContext.UnwrapOr(""), OWNER_MARKER)
  }

  lemma CutOwner(b: string)
    requires b != "" && b <= OWNER_MARKER
    ensures BlockEnd(b) == Some(Cut)
  {
    hide TrimStart, TrimEnd, Pushed;
    OwnerTag();
    TagFacts(OWNER_MARKER);
    AsciiBytes(OWNER_MARKER);
    ShortPrefix(b, OWNER_MARKER);
    assert b == OWNER_MARKER[..|b|];
  }

  lemma CutValue(launch: Launch, v: string)
    requires '\n' !in OwnerValue(launch) && !Contains(OwnerValue(launch), MARKER_END)
    requires v <= OwnerValue(launch) + MARKER_END && |v| < |OwnerValue(launch) + MARKER_END|
    ensures ReadValue(v, IsOwner) == Unfinished
  {
    hide Contains, OwnerValue, MARKER_END, IsOwner;
    MarkerEnd();
    var value := OwnerValue(launch);
    var rest := (value + MARKER_END)[|v|..];
    assert v + rest == value + MARKER_END + "";
    EndIsFound(value, "");
    assert '\n' !in value + MARKER_END;
    var found := Find(v, MARKER_END);
    if found.Some? {
      MatchFits(v, MARKER_END, found.value);
      FirstStays(v, rest, found.value);
    }
  }

  lemma CutBeforeEnd(launch: Launch, v: string)
    requires IsPrintable(launch) && !Contains(OwnerValue(launch), MARKER_END)
    requires v <= OwnerValue(launch) + MARKER_END && |v| < |OwnerValue(launch) + MARKER_END|
    ensures BlockEnd(OWNER_MARKER + v) == Some(Cut)
  {
    hide Contains, OwnerValue, Bytes, OWNER_MARKER, MARKER_END, IsOwner, ReadValue, RoutineMarker;
    CutValue(launch, v);
    MarkerOpened(OWNER_MARKER, v, IsOwner);
    var all := OwnerValue(launch) + MARKER_END + ContextStart(launch.eventContext);
    assert OWNER_MARKER + all == OWNER_MARKER + v + all[|v|..];
    BytesConcat(OWNER_MARKER + v, all[|v|..]);
  }

  /** What the cut block is when its owner marker is whole. */
  lemma TailParts(context: Option<string>, tail: string)
    requires tail <= ContextTail(context)
    ensures |tail| <= 1 ==> tail == "" || (tail == "\n" && context.Some?)
    ensures |tail| > 1 ==> context.Some? && tail == "\n" + tail[1..]
                           && tail[1..] <= EVENT_CONTEXT_OPEN + (context.value + EVENT_CONTEXT_CLOSE)
  {
    hide EVENT_CONTEXT_OPEN, EVENT_CONTEXT_CLOSE;
  }

  lemma CutAfterEnd(launch: Launch, tail: string)
    requires IsPrintable(launch) && !Contains(OwnerValue(launch), MARKER_END)
    requires tail <= ContextTail(launch.eventContext) && !Contains(launch.eventContext.UnwrapOr(""), OWNER_MARKER)
    ensures BlockEnd(OWNER_MARKER + (OwnerValue(launch) + MARKER_END + tail)).Some?
  {
    hide Contains, OwnerValue, Bytes, OWNER_MARKER, MARKER_END, IsOwner, RoutineMarker, Pushed, AfterOwner, TrimStart;
    hide IsPrintable, ContextTail, IsValue, EVENT_CONTEXT_OPEN, EVENT_CONTEXT_CLOSE;
    var b := OWNER_MARKER + (OwnerValue(launch) + MARKER_END + tail);
    PrintableValue(launch);
    MarkerPrinted(OWNER_MARKER, OwnerValue(launch), tail, IsOwner);
    TailParts(launch.eventContext, tail);
    if |tail| <= 1 {
      CutInGap(launch, b, tail);
    } else {
      CutPastGap(launch, tail[1..]);
    }
  }

  lemma PrintableValue(launch: Launch)
    requires IsPrintable(launch) && !Contains(OwnerValue(launch), MARKER_END)
    ensures IsValue(OwnerValue(launch), IsOwner)
  {
    hide OwnerValue, IsOwner, Bytes, Contains;
  }

  lemma CutPastGap(launch: Launch, rest: string)
    requires IsPrintable(launch) && !Contains(OwnerValue(launch), MARKER_END) && launch.eventContext.Some?
    requires rest != "" && rest <= EVENT_CONTEXT_OPEN + (launch.eventContext.value + EVENT_CONTEXT_CLOSE)
    requires !Contains(launch.eventContext.value, OWNER_MARKER)
    ensures BlockEnd(OWNER_MARKER + (OwnerValue(launch) + MARKER_END + ("\n" + rest))).Some?
  {
    hide Contains, OwnerValue, Bytes, OWNER_MARKER, MARKER_END, IsOwner, RoutineMarker, Pushed, AfterOwner, TrimStart;
    hide IsPrintable, ContextTail, IsValue, EVENT_CONTEXT_OPEN, EVENT_CONTEXT_CLOSE;
    var text := launch.eventContext.value;
    var b := OWNER_MARKER + (OwnerValue(launch) + MARKER_END + ("\n" + rest));
    PrintableValue(launch);
    MarkerPrinted(OWNER_MARKER, OwnerValue(launch), "\n" + rest, IsOwner);
    OpenStarts(text);
    assert rest[0] == (EVENT_CONTEXT_OPEN + (text + EVENT_CONTEXT_CLOSE))[0];
    TrimStartIsUnique("\n", rest);
    if |rest| < |EVENT_CONTEXT_OPEN| {
      CutInOpen(launch, b, rest);
    } else {
      CutInContext(launch, rest);
    }
  }

  lemma CutInGap(launch: Launch, b: string, tail: string)
    requires IsPrintable(launch) && (tail == "" || (tail == "\n" && launch.eventContext.Some?))
    requires b == OWNER_MARKER + (OwnerValue(launch) + MARKER_END + tail)
    ensures TrimStart(tail) == "" && AfterOwner(b, "") == Ended(Some(Whole))
  {
    hide Contains, OwnerValue, Bytes, OWNER_MARKER, MARKER_END, IsOwner, RoutineMarker;
    var start := ContextStart(launch.eventContext);
    NothingIsAbsent();
    var all := OwnerValue(launch) + MARKER_END + start;
    assert OWNER_MARKER + all == b + start[|tail|..];
    BytesConcat(b, start[|tail|..]);
  }

  lemma CutInOpen(launch: Launch, b: string, rest: string)
    requires IsPrintable(launch) && launch.eventContext.Some? && |rest| <= |b|
    requires rest != "" && rest <= EVENT_CONTEXT_OPEN && |rest| < |EVENT_CONTEXT_OPEN|
    requires b == OWNER_MARKER + (OwnerValue(launch) + MARKER_END + ("\n" + rest))
    ensures AfterOwner(b, rest) == Ended(Some(Cut))
  {
    hide Contains, OwnerValue, Bytes, OWNER_MARKER, MARKER_END, EVENT_CONTEXT_OPEN, IsOwner, RoutineMarker, TrimEnd;
    OpenTag();
    assert rest[0] == EVENT_CONTEXT_OPEN[0];
    FirstIsText(rest);
    OpenStartIsNoLaunch(rest);
    var more := EVENT_CONTEXT_OPEN[|rest|..];
    assert OWNER_MARKER + (OwnerValue(launch) + MARKER_END + ContextStart(launch.eventContext)) == b + more;
    BytesConcat(b, more);
  }

  lemma OpenStartIsNoLaunch(rest: string)
    requires rest <= EVENT_CONTEXT_OPEN
    ensures !RoutineMarker(rest, LAUNCH_MARKER, IsLaunch).Finished?
  {
    hide ReadValue, Bytes;
    OpenTag();
    LaunchTag();
    TagsDiffer();
    assert 1 < |rest| ==> rest[1] == EVENT_CONTEXT_OPEN[1];
  }

  lemma CutInContext(launch: Launch, rest: string)
    requires IsPrintable(launch) && launch.eventContext.Some?
    requires rest <= EVENT_CONTEXT_OPEN + (launch.eventContext.value + EVENT_CONTEXT_CLOSE)
    requires |EVENT_CONTEXT_OPEN| <= |rest| && !Contains(launch.eventContext.value, OWNER_MARKER)
    ensures var b := OWNER_MARKER + (OwnerValue(launch) + MARKER_END + ("\n" + rest));
            match AfterOwner(b, rest)
            case Context(at) => ContextEnd(Pushed(FRESH, b[at..])).Some?
            case Ended(end) => end.Some?
  {
    hide Contains, OwnerValue, Bytes, OWNER_MARKER, MARKER_END, EVENT_CONTEXT_OPEN, EVENT_CONTEXT_CLOSE, IsOwner;
    hide RoutineMarker, Pushed, AfterMarkers;
    var text := launch.eventContext.value;
    var c := rest[|EVENT_CONTEXT_OPEN|..];
    assert rest == EVENT_CONTEXT_OPEN + c && c <= text + EVENT_CONTEXT_CLOSE;
    OpenIsNoLaunch(rest);
    var start := OWNER_MARKER + (OwnerValue(launch) + MARKER_END + ContextStart(launch.eventContext));
    assert OWNER_MARKER + (OwnerValue(launch) + MARKER_END + ("\n" + rest)) == start + c;
    OpenedContext(start, rest, c);
    CutContext(text, c);
  }

  /** A printed context is cut short or whole wherever it is cut. */
  lemma CutContext(text: string, c: string)
    requires c <= text + EVENT_CONTEXT_CLOSE
    requires !Contains(text, EVENT_CONTEXT_OPEN) && !Contains(text, EVENT_CONTEXT_CLOSE) && !Contains(text, OWNER_MARKER)
    ensures ContextEnd(Pushed(FRESH, c)).Some?
  {
    hide Contains, Bytes, OWNER_MARKER, EVENT_CONTEXT_OPEN, EVENT_CONTEXT_CLOSE;
    hide Pushed, Count, LastEnd, AllWhite, IsTag, Carries, EndsAt;
    var all, rest := text + EVENT_CONTEXT_CLOSE, (text + EVENT_CONTEXT_CLOSE)[|c|..];
    assert all == c + rest;
    OnePushSummarises(c);
    CloseTag();
    CloseAdds(text);
    ClosesAfter(text);
    CountContains(text, EVENT_CONTEXT_CLOSE);
    CountSplits(c, rest, EVENT_CONTEXT_OPEN);
    CountSplits(c, rest, OWNER_MARKER);
    CountSplits(c, rest, EVENT_CONTEXT_CLOSE);
    if Count(c, EVENT_CONTEXT_CLOSE, 0) > 0 {
      LastEndSplits(c, rest, EVENT_CONTEXT_CLOSE);
      assert c[|c|..] == "";
      NoneIsWhite();
    }
  }

  /** Every nonempty start of a printed block is a block, whole or cut. */
  lemma PrefixIsBlock(launch: Launch, b: string)
    requires IsPrintable(launch) && !Contains(OwnerValue(launch), MARKER_END)
    requires !Contains(launch.eventContext.UnwrapOr(""), OWNER_MARKER)
    requires b != "" && b <= Block(launch)
    ensures BlockEnd(b).Some?
  {
    hide Contains, OwnerValue, OWNER_MARKER, MARKER_END, ContextTail, BlockEnd, IsPrintable;
    var all := OwnerValue(launch) + MARKER_END;
    var tail := ContextTail(launch.eventContext);
    if |b| <= |OWNER_MARKER| {
      assert b <= OWNER_MARKER;
      CutOwner(b);
    } else {
      var v := b[|OWNER_MARKER|..];
      assert b == OWNER_MARKER + v && v <= all + tail;
      if |v| < |all| {
        assert v <= all;
        CutBeforeEnd(launch, v);
      } else {
        assert v == all + v[|all|..];
        CutAfterEnd(launch, v[|all|..]);
      }
    }
  }

  // ----- The only owner marker of a prompt

  lemma OnlySpace(m: nat)
    requires m < |OWNER_MARKER| && OWNER_MARKER[m] == ' '
    ensures m == 4
  {
  }

  /** No owner marker runs from a value into the end of its marker. */
  lemma NotAcrossEnd(value: string, k: nat)
    requires At(value + MARKER_END, OWNER_MARKER, k)
    ensures Contains(value, OWNER_MARKER)
  {
    hide OWNER_MARKER, MARKER_END;
    var s := value + MARKER_END;
    OwnerTag();
    MarkerEndChars();
    TagsDiffer();
    OccurrenceStarts(s, OWNER_MARKER, k);
    if k + |OWNER_MARKER| <= |value| {
      InPrefix(value, MARKER_END, OWNER_MARKER, k);
      AtContains(value, OWNER_MARKER, k);
    } else {
      var m := |value| - k;
      if 0 <= m {
        OnlySpace(m);
      }
    }
  }

  lemma MarkerEndChars()
    ensures |MARKER_END| == 4 && MARKER_END[0] == ' ' && MARKER_END[1] == '-' && MARKER_END[2] == '-' && MARKER_END[3] == '>'
  {
  }

  lemma NoMarkerInTail(context: Option<string>, k: nat)
    requires At(ContextTail(context), OWNER_MARKER, k)
    ensures Contains(context.UnwrapOr(""), OWNER_MARKER)
  {
    hide OWNER_MARKER, EVENT_CONTEXT_OPEN, EVENT_CONTEXT_CLOSE, Contains;
    OwnerTag();
    OpenTag();
    TagsDiffer();
    var tail := ContextTail(context);
    OccurrenceStarts(tail, OWNER_MARKER, k);
    var text := context.value;
    var before, rest := "\n" + EVENT_CONTEXT_OPEN, text + EVENT_CONTEXT_CLOSE;
    assert tail == before + rest;
    assert forall i :: 1 < i < |before| ==> tail[i] == EVENT_CONTEXT_OPEN[i - 1];
    assert tail[2] == EVENT_CONTEXT_OPEN[1];
    if |before| <= k {
      assert tail[k..k + |OWNER_MARKER|] == rest[k - |before|..k - |before| + |OWNER_MARKER|];
      AtContains(rest, OWNER_MARKER, k - |before|);
      NotInClose(text, OWNER_MARKER);
    }
  }

  lemma OnlyMarkerOfBlock(launch: Launch, k: nat)
    requires HoldsNoMarker(launch) && At(Block(launch), OWNER_MARKER, k)
    ensures k == 0
  {
    hide OWNER_MARKER, MARKER_END, OwnerValue, Contains, ContextTail;
    var value, tail := OwnerValue(launch), ContextTail(launch.eventContext);
    var head := OWNER_MARKER + (value + MARKER_END);
    var block := Block(launch);
    assert block == head + tail;
    OwnerTag();
    TagFacts(OWNER_MARKER);
    if k > 0 {
      assert block[0..|OWNER_MARKER|] == OWNER_MARKER;
      NoOverlap(block, OWNER_MARKER, 0, k);
      TailStarts(launch.eventContext);
      if tail != "" { OccursOnOneSide(head, tail, OWNER_MARKER, k); } else { assert head + tail == head; }
      if |head| <= k && tail != "" {
        NoMarkerInTail(launch.eventContext, k - |head|);
      } else {
        var m := k - |OWNER_MARKER|;
        assert head[k..k + |OWNER_MARKER|] == (value + MARKER_END)[m..m + |OWNER_MARKER|];
        NotAcrossEnd(value, m);
      }
    }
  }

  lemma TailStarts(context: Option<string>)
    ensures ContextTail(context) != "" ==> ContextTail(context)[0] == '\n'
  {
  }

  lemma OnlyMarker(launch: Launch, k: nat)
    requires HoldsNoMarker(launch) && At(Prompt(launch), OWNER_MARKER, k)
    ensures k == |BeforeBlock(launch)|
  {
    hide OWNER_MARKER, Trim, Block, Contains;
    var before, t := BeforeBlock(launch), Trim(launch.instruction);
    OwnerTag();
    BlockIsSealed(launch);
    SealedStarts(Block(launch));
    BlockIsText(Block(launch));
    OccursOnOneSide(before, Block(launch), OWNER_MARKER, k);
    if |before| <= k {
      OnlyMarkerOfBlock(launch, k - |before|);
    } else {
      assert before == t + GAP;
      assert forall i :: |t| <= i < |before| ==> before[i] == '\n';
      OccurrenceStarts(before, OWNER_MARKER, k);
      OccursOnOneSide(t, GAP, OWNER_MARKER, k);
      AtContains(t, OWNER_MARKER, k);
    }
  }

  // ----- A prompt cut short

  /** The cut marker at the end of a text that ends with the start of one. */
  lemma {:induction false} CutMarkerIs(text: string, n: nat, length: nat)
    requires 0 < n <= length < |OWNER_MARKER| && n <= |text|
    requires text[|text| - n..] == OWNER_MARKER[..n]
    ensures CutMarker(text, length) == Some(|text| - n)
  {
    hide OWNER_MARKER;
    OwnerTag();
    if n < length {
      assert text[|text| - n] == text[|text| - n..][0] == OWNER_MARKER[..n][0];
      assert IsPlain(OWNER_MARKER[length - n]);
      assert length <= |text| ==> text[|text| - length..][length - n] == text[|text| - n];
      assert OWNER_MARKER[..length][length - n] == OWNER_MARKER[length - n];
      CutMarkerIs(text, n, length - 1);
    }
  }

  lemma StartOfCut(launch: Launch, c: nat)
    requires |BeforeBlock(launch)| < c <= |Prompt(launch)|
    ensures |BeforeBlock(launch)| in BlockStarts(Prompt(launch)[..c], true)
  {
    hide OWNER_MARKER, Trim, BeforeBlock, Block, At, CutMarker, Places, MatchIndices, Prompt, IsPlace;
    var start, text := |BeforeBlock(launch)|, Prompt(launch)[..c];
    OwnerTag();
    MarkerStartsBlock(launch);
    BlockPlace(launch, text);
    assert Prompt(launch) == text + Prompt(launch)[c..];
    if start + |OWNER_MARKER| <= c {
      InPrefix(text, Prompt(launch)[c..], OWNER_MARKER, start);
      BlockStartsIncrease(text, true);
    } else {
      BlockStart17(launch);
      assert text[start..] == Block(launch)[..c - start] == OWNER_MARKER[..c - start];
      CutMarkerIs(text, c - start, |OWNER_MARKER| - 1);
    }
  }

  lemma BlockStart17(launch: Launch)
    ensures OWNER_MARKER <= Block(launch)
  {
  }

  lemma OtherStartsAreCut(launch: Launch, c: nat, s: nat)
    requires HoldsNoMarker(launch) && |BeforeBlock(launch)| < c <= |Prompt(launch)|
    requires s in BlockStarts(Prompt(launch)[..c], true) && s != |BeforeBlock(launch)|
    ensures |BeforeBlock(launch)| < s < c && BlockEnd(Prompt(launch)[..c][s..]) == Some(Cut)
  {
    hide OWNER_MARKER, Trim, BeforeBlock, Block, At, CutMarker, MatchIndices, Prompt, BlockStarts, HoldsNoMarker, BlockEnd;
    var start, text := |BeforeBlock(launch)|, Prompt(launch)[..c];
    OwnerTag();
    BlockStartsIncrease(text, true);
    assert Prompt(launch) == text + Prompt(launch)[c..];
    if At(text, OWNER_MARKER, s) {
      MatchFits(text, OWNER_MARKER, s);
      InPrefix(text, Prompt(launch)[c..], OWNER_MARKER, s);
      OnlyMarker(launch, s);
    } else {
      CutOwner(text[s..]);
      CutLies(launch, c, s);
    }
  }

  lemma CutLies(launch: Launch, c: nat, s: nat)
    requires |BeforeBlock(launch)| < c <= |Prompt(launch)|
    requires CutMarker(Prompt(launch)[..c], |OWNER_MARKER| - 1) == Some(s)
    ensures |BeforeBlock(launch)| <= s
  {
    hide OWNER_MARKER, Trim, BeforeBlock, Block, Prompt;
    var start, text := |BeforeBlock(launch)|, Prompt(launch)[..c];
    OwnerTag();
    MarkerStartsBlock(launch);
    if c < start + |OWNER_MARKER| {
      BlockStart17(launch);
      assert text[start..] == Block(launch)[..c - start] == OWNER_MARKER[..c - start];
      CutMarkerIs(text, c - start, |OWNER_MARKER| - 1);
    }
  }

  /** The prompt of a printable launch that holds no owner marker of its own,
      cut anywhere after its block began, still strips to the instruction. */
  lemma CutThenStrip(launch: Launch, c: nat)
    requires IsPrintable(launch) && !Contains(OwnerValue(launch), MARKER_END) && HoldsNoMarker(launch)
    requires |BeforeBlock(launch)| < c <= |Prompt(launch)|
    ensures StripBlock(Prompt(launch)[..c], Cut) == Trim(launch.instruction)
  {
    hide OWNER_MARKER, Trim, TrimEnd, BeforeBlock, Block, Prompt, BlockStarts, BlockEnd, IsPrintable, Contains, FirstBlock;
    var start, text := |BeforeBlock(launch)|, Prompt(launch)[..c];
    var starts := BlockStarts(text, true);
    MarkerStartsBlock(launch);
    BeforeBlockTrims(launch);
    assert text[..start] == BeforeBlock(launch);
    assert text[start..] <= Block(launch);
    PrefixIsBlock(launch, text[start..]);
    StartOfCut(launch, c);
    BlockStartsIncrease(text, true);
    forall s: nat | s in starts && s != start ensures start < s < c && IsBlock(text, s, Cut) {
      OtherStartsAreCut(launch, c, s);
    }
    if IsBlock(text, start, Whole) {
      FirstIsLeast(text, starts, Whole, start);
    } else {
      assert BlockEnd(text[start..]) == Some(Cut) by { match BlockEnd(text[start..]).value case Whole => case Cut => }
      FirstIsLeast(text, starts, Cut, start);
    }
  }
}
