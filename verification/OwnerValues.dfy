/** Blocks whose owner value holds the end of a marker, which nothing keeps a
    path from: what follows is read as text after the owner marker, and the
    block is whole only when that happens to be the start of a launch marker. */
module OwnerValues {
  import opened Text
  import opened RoutineBlock
  import opened ContextScan
  import opened BlockScan
  import opened RoutinePrompt
  import opened RoutineRoundTrip

  /** `rest` is the start of a launch marker that the printed end finishes. */
  predicate StartsLaunch(rest: string) {
    && LAUNCH_MARKER <= rest
    && IsValue(rest[|LAUNCH_MARKER|..], IsLaunch)
  }

  /** An owner, the end of its marker, and the start of a launch marker. */
  predicate HoldsLaunch(value: string) {
    match Find(value, MARKER_END)
    case Some(i) => '\n' !in value[..i] && IsOwner(value[..i]) && StartsLaunch(TrimStart(value[i + |MARKER_END|..]))
    case None => false
  }

  lemma SplitEnd(v: string, i: nat)
    requires Find(v, MARKER_END) == Some(i)
    ensures i + 4 <= |v| && v == v[..i] + MARKER_END + v[i + 4..] && !Contains(v[..i], MARKER_END)
  {
    MarkerEnd();
    assert v[i..] == MARKER_END + v[i + 4..];
    forall j | 0 <= j <= i ensures !At(v[..i], MARKER_END, j) {
      if At(v[..i], MARKER_END, j) {
        assert v == v[..i] + v[i..];
        InPrefix(v[..i], v[i..], MARKER_END, j);
      }
    }
  }

  /** What the marker at the start of `prefix + v` is read as. */
  lemma ReadSplit(prefix: string, v: string, tail: string, i: nat, valid: string -> bool)
    requires Find(v, MARKER_END) == Some(i)
    ensures i + 4 <= |v|
    ensures RoutineMarker(prefix + (v + MARKER_END + tail), prefix, valid)
            == if '\n' !in v[..i] && valid(v[..i]) then Finished(v[i + 4..] + MARKER_END + tail) else Absent
  {
    hide Contains, RoutineMarker, MARKER_END;
    MarkerEnd();
    SplitEnd(v, i);
    var a, y := v[..i], v[i + 4..];
    var all := v + MARKER_END + tail;
    assert all == a + MARKER_END + (y + MARKER_END + tail);
    MarkerOpened(prefix, all, valid);
    EndIsFound(a, y + MARKER_END + tail);
    assert all[..i] == a && all[i + 4..] == y + MARKER_END + tail;
  }

  lemma ReadWhole(prefix: string, v: string, tail: string, valid: string -> bool)
    requires !Contains(v, MARKER_END)
    ensures RoutineMarker(prefix + (v + MARKER_END + tail), prefix, valid)
            == if '\n' !in v && valid(v) then Finished(tail) else Absent
  {
    hide Contains, RoutineMarker, MARKER_END;
    MarkerEnd();
    var all := v + MARKER_END + tail;
    MarkerOpened(prefix, all, valid);
    EndIsFound(v, tail);
    assert all[..|v|] == v && all[|v| + 4..] == tail;
  }

  // ----- Text after the markers

  /** A context that the printed end runs into is not whole: text follows its
      closing tag, or another context opens. */
  lemma EndContext(before: string, context: Option<string>)
    ensures ContextEnd(Pushed(FRESH, before + MARKER_END + ContextTail(context))) != Some(Whole)
  {
    hide Pushed, Count, LastEnd, TextAfter, Carries, IsTag, Contains;
    hide OWNER_MARKER, LAUNCH_MARKER, MARKER_END, EVENT_CONTEXT_OPEN, EVENT_CONTEXT_CLOSE, MARKERS_LIMIT;
    var text := before + MARKER_END + ContextTail(context);
    OnePushSummarises(text);
    OpenTag();
    CloseTag();
    MarkerEnd();
    match context
    case Some(shown) =>
      var i := |before + MARKER_END| + 1;
      assert text == (before + MARKER_END + "\n") + (EVENT_CONTEXT_OPEN + (shown + EVENT_CONTEXT_CLOSE));
      assert text[i..i + |EVENT_CONTEXT_OPEN|] == EVENT_CONTEXT_OPEN;
      AtContains(text, EVENT_CONTEXT_OPEN, i);
      CountContains(text, EVENT_CONTEXT_OPEN);
    case None =>
      assert text[|text| - 4..] == MARKER_END;
      if Count(text, EVENT_CONTEXT_CLOSE, 0) > 0 { EndIsAfterClose(text); }
  }

  /** What follows an end of a marker within the value, and the printed end. */
  lemma TrimmedEnd(u: string, tail: string)
    ensures var r := TrimStart(u + MARKER_END + tail);
            if TrimStart(u) == "" then r == MARKER_END[1..] + tail else r == TrimStart(u) + MARKER_END + tail
  {
    TrimStartMore(u, MARKER_END + tail);
    assert u + MARKER_END + tail == u + (MARKER_END + tail);
    assert MARKER_END + tail == " " + (MARKER_END[1..] + tail);
    TrimStartIsUnique(" ", MARKER_END[1..] + tail);
    assert TrimStart(u) + (MARKER_END + tail) == TrimStart(u) + MARKER_END + tail;
  }

  lemma OpenBeforeEnd(u: string, tail: string)
    requires EVENT_CONTEXT_OPEN <= u + MARKER_END + tail
    ensures |EVENT_CONTEXT_OPEN| <= |u|
  {
    hide EVENT_CONTEXT_OPEN, MARKER_END;
    OpenTag();
    MarkerEnd();
    OpenHasNoSpace();
    SpaceFirst();
    var all := u + MARKER_END + tail;
    assert all[|u|] == MARKER_END[0];
    assert all == EVENT_CONTEXT_OPEN + all[|EVENT_CONTEXT_OPEN|..];
  }

  lemma OpenHasNoSpace()
    ensures forall i :: 0 <= i < |EVENT_CONTEXT_OPEN| ==> EVENT_CONTEXT_OPEN[i] != ' '
  {
  }

  lemma SpaceFirst()
    ensures MARKER_END[0] == ' ' && MARKER_END[1] == '-'
  {
  }

  /** Nothing after an end of a marker within the value makes the block whole. */
  lemma EndNotWhole(text: string, u: string, context: Option<string>)
    requires IsSuffix(TrimStart(u + MARKER_END + ContextTail(context)), text)
    ensures |TrimStart(u + MARKER_END + ContextTail(context))| <= |text|
    ensures match AfterMarkers(text, TrimStart(u + MARKER_END + ContextTail(context)))
            case Context(at) => ContextEnd(Pushed(FRESH, text[at..])) != Some(Whole)
            case Ended(end) => end != Some(Whole)
  {
    hide Pushed, AfterMarkers, ContextTail, EVENT_CONTEXT_OPEN, MARKER_END, TrimStart;
    MarkerEnd();
    SpaceFirst();
    var tail := ContextTail(context);
    var r := TrimStart(u + MARKER_END + tail);
    TrimmedEnd(u, tail);
    AfterMarkersCases(text, r);
    if AfterMarkers(text, r).Context? {
      if TrimStart(u) == "" {
        DashOpensNot(r);
      } else {
        OpenBeforeEnd(TrimStart(u), tail);
        var before := TrimStart(u)[|EVENT_CONTEXT_OPEN|..];
        assert r[|EVENT_CONTEXT_OPEN|..] == before + MARKER_END + tail;
        EndContext(before, context);
      }
    }
  }

  lemma DashOpensNot(r: string)
    requires r != "" && r[0] == '-'
    ensures !(EVENT_CONTEXT_OPEN <= r)
  {
    OpenTag();
  }

  // ----- The launch marker

  lemma LaunchSpaces()
    ensures forall i :: 0 <= i < |LAUNCH_MARKER| - 1 && LAUNCH_MARKER[i] == ' ' ==> LAUNCH_MARKER[i + 1] != '-'
    ensures LAUNCH_MARKER[|LAUNCH_MARKER| - 1] != ' ' && LAUNCH_MARKER[0] == '<'
  {
  }

  /** No launch marker runs across the printed end. */
  lemma LaunchBeforeEnd(u: string, tail: string)
    requires LAUNCH_MARKER <= u + MARKER_END + tail
    ensures LAUNCH_MARKER <= u
  {
    hide LAUNCH_MARKER, MARKER_END;
    LaunchTag();
    MarkerEnd();
    SpaceFirst();
    LaunchSpaces();
    var all := u + MARKER_END + tail;
    assert all[|u|] == ' ' && all[|u| + 1] == '-';
    assert all == LAUNCH_MARKER + all[|LAUNCH_MARKER|..];
    assert LAUNCH_MARKER <= all && u <= all;
    PrefixesCompare(LAUNCH_MARKER, u, all);
  }

  /** After an owner marker that ends within the value, the block is whole only
      when the rest of the value starts a launch marker. */
  lemma RestStartsLaunch(text: string, u: string, context: Option<string>)
    requires IsSuffix(TrimStart(u + MARKER_END + ContextTail(context)), text) && !StartsLaunch(TrimStart(u))
    ensures |TrimStart(u + MARKER_END + ContextTail(context))| <= |text|
    ensures match AfterOwner(text, TrimStart(u + MARKER_END + ContextTail(context)))
            case Context(at) => ContextEnd(Pushed(FRESH, text[at..])) != Some(Whole)
            case Ended(end) => end != Some(Whole)
  {
    hide Pushed, AfterMarkers, ContextTail, EVENT_CONTEXT_OPEN, MARKER_END, LAUNCH_MARKER, TrimStart, RoutineMarker, IsValue;
    hide IsSuffix, StartsLaunch;
    var tail := ContextTail(context);
    var r := TrimStart(u + MARKER_END + tail);
    EndNotWhole(text, u, context);
    if RoutineMarker(r, LAUNCH_MARKER, IsLaunch).Finished? {
      var z := LaunchRead(u, tail);
      var j := Find(z, MARKER_END).value;
      MarkerEnd();
      MarkerSuffix(r, LAUNCH_MARKER, IsLaunch);
      SuffixOfSuffix(TrimStart(z[j + 4..] + MARKER_END + tail), r, text);
      EndNotWhole(text, z[j + 4..], context);
    }
  }

  /** A launch marker that ends, but not at the printed end, ends within the
      value. */
  lemma LaunchRead(u: string, tail: string) returns (z: string)
    requires !StartsLaunch(TrimStart(u))
    requires RoutineMarker(TrimStart(u + MARKER_END + tail), LAUNCH_MARKER, IsLaunch).Finished?
    ensures Find(z, MARKER_END).Some? && Find(z, MARKER_END).value + 4 <= |z|
    ensures RoutineMarker(TrimStart(u + MARKER_END + tail), LAUNCH_MARKER, IsLaunch)
            == Finished(z[Find(z, MARKER_END).value + 4..] + MARKER_END + tail)
  {
    hide LAUNCH_MARKER, MARKER_END, TrimStart, RoutineMarker, Contains, IsLaunch;
    LaunchTag();
    MarkerEnd();
    SpaceFirst();
    var r := TrimStart(u + MARKER_END + tail);
    TrimmedEnd(u, tail);
    var id := FinishedParts(r, LAUNCH_MARKER, IsLaunch);
    assert LAUNCH_MARKER <= r && r[0] == LAUNCH_MARKER[0];
    LaunchBeforeEnd(TrimStart(u), tail);
    z := TrimStart(u)[|LAUNCH_MARKER|..];
    assert r == LAUNCH_MARKER + (z + MARKER_END + tail);
    match Find(z, MARKER_END)
    case Some(j) => ReadSplit(LAUNCH_MARKER, z, tail, j, IsLaunch);
    case None => ReadWhole(LAUNCH_MARKER, z, tail, IsLaunch);
  }

  lemma LaunchStarted(text: string, u: string, context: Option<string>)
    requires StartsLaunch(TrimStart(u)) && IsSuffix(TrimStart(u + MARKER_END + ContextTail(context)), text)
    ensures |TrimStart(u + MARKER_END + ContextTail(context))| <= |text| && |TrimStart(ContextTail(context))| <= |text|
    ensures AfterOwner(text, TrimStart(u + MARKER_END + ContextTail(context)))
            == AfterOwner(text, TrimStart(ContextTail(context)))
  {
    hide AfterMarkers, ContextTail, EVENT_CONTEXT_OPEN, MARKER_END, LAUNCH_MARKER, TrimStart, RoutineMarker, IsLaunch, Contains;
    LaunchTag();
    var tail := ContextTail(context);
    var r := TrimStart(u + MARKER_END + tail);
    TrimmedEnd(u, tail);
    assert TrimStart(u) != "";
    var z := TrimStart(u)[|LAUNCH_MARKER|..];
    assert r == LAUNCH_MARKER + (z + MARKER_END + tail);
    ReadWhole(LAUNCH_MARKER, z, tail, IsLaunch);
    TailIsNoLaunch(context);
  }

  lemma TailIsNoLaunch(context: Option<string>)
    ensures RoutineMarker(TrimStart(ContextTail(context)), LAUNCH_MARKER, IsLaunch).Absent?
  {
    hide EVENT_CONTEXT_OPEN, EVENT_CONTEXT_CLOSE, RoutineMarker;
    match context
    case Some(text) =>
      var shown := EVENT_CONTEXT_OPEN + (text + EVENT_CONTEXT_CLOSE);
      OpenStarts(text);
      TrimStartIsUnique("\n", shown);
      OpenIsNoLaunch(shown);
    case None => NothingIsAbsent();
  }

  // ----- The block

  /** With an end of a marker in the owner value, the printed block is whole
      exactly when the value goes on with the start of a launch marker. */
  lemma HeldEndIsWhole(launch: Launch)
    requires Contains(OwnerValue(launch), MARKER_END)
    ensures BlockEnd(Block(launch)) == Some(Whole) <==> HoldsLaunch(OwnerValue(launch)) && FitsLimit(launch)
  {
    hide Contains, RoutineMarker, IsOwner, OwnerValue, Pushed, AfterOwner, StartsLaunch, TrimStart, IsSuffix, ContextTail;
    hide OWNER_MARKER, MARKER_END, MARKERS_LIMIT, Bytes;
    var v, tail, text := OwnerValue(launch), ContextTail(launch.eventContext), Block(launch);
    var i := Find(v, MARKER_END).value;
    MarkerEnd();
    ReadSplit(OWNER_MARKER, v, tail, i, IsOwner);
    if '\n' !in v[..i] && IsOwner(v[..i]) {
      var u := v[i + 4..];
      MarkerSuffix(text, OWNER_MARKER, IsOwner);
      if StartsLaunch(TrimStart(u)) {
        LaunchStarted(text, u, launch.eventContext);
        WholeIfFits(launch);
      } else {
        RestStartsLaunch(text, u, launch.eventContext);
      }
    }
  }

  lemma WholeIfFits(launch: Launch)
    requires |TrimStart(ContextTail(launch.eventContext))| <= |Block(launch)|
    ensures (match AfterOwner(Block(launch), TrimStart(ContextTail(launch.eventContext)))
             case Context(at) => ContextEnd(Pushed(FRESH, Block(launch)[at..])) == Some(Whole)
             case Ended(end) => end == Some(Whole))
            <==> FitsLimit(launch)
  {
    hide Contains, OwnerValue, Pushed, AfterOwner, Bytes;
    match launch.eventContext
    case None =>
      assert TrimStart("") == "";
      NoContextIsWhole(launch);
    case Some(text) => ContextIsWhole(launch);
  }

  /** Printing then stripping gives the instruction back exactly when the owner
      value is an owner on one line or holds the start of a launch marker, and
      the block fits the limit with a clean context. */
  lemma AnyPrintThenStrip(launch: Launch)
    ensures StripBlock(Prompt(launch), Whole) == Trim(launch.instruction) <==>
              if Contains(OwnerValue(launch), MARKER_END) then HoldsLaunch(OwnerValue(launch)) && FitsLimit(launch)
              else IsPrintable(launch)
  {
    hide *;
    StripsExactlyWholeBlocks(launch);
    if Contains(OwnerValue(launch), MARKER_END) { HeldEndIsWhole(launch); } else { BlockIsWhole(launch); }
  }

  /** A path that breaks it, whatever the instruction. */
  lemma PathBreaksBlock(instruction: string)
    ensures var launch := Launch(instruction, "a", "b --> c", None);
            StripBlock(Prompt(launch), Whole) != Trim(instruction)
  {
    hide StripBlock, Prompt, Trim, Bytes, IsPrintable, FitsLimit;
    var launch := Launch(instruction, "a", "b --> c", None);
    var value := OwnerValue(launch);
    assert value == "a:b" + MARKER_END + " c";
    NoEndYet();
    EndIsFound("a:b", " c");
    assert value[3 + 4..] == " c" && " c"[1..] == "c";
    assert TrimStart(" c") == "c";
    AnyPrintThenStrip(launch);
  }

  lemma NoEndYet()
    ensures !Contains("a:b", MARKER_END)
  {
  }
}
