/** The prompt of a Routine launch, and its instruction taken back from it. */
module RoutinePrompt {
  import opened Text
  import opened RoutineBlock
  import opened ContextScan
  import opened BlockScan

  datatype Launch = Launch(instruction: string, ownerKind: string, ownerPath: string, eventContext: Option<string>)

  const GAP: string := "\n\n"

  function OwnerValue(launch: Launch): string {
    launch.ownerKind + ":" + launch.ownerPath
  }

  function ContextTail(context: Option<string>): string {
    match context
    case Some(text) => "\n" + (EVENT_CONTEXT_OPEN + (text + EVENT_CONTEXT_CLOSE))
    case None => ""
  }

  /** The block a launch appends. */
  function Block(launch: Launch): string {
    OWNER_MARKER + (OwnerValue(launch) + MARKER_END + ContextTail(launch.eventContext))
  }

  /** What precedes the block: the instruction and an empty line. */
  function BeforeBlock(launch: Launch): string {
    var instruction := Trim(launch.instruction);
    if instruction == "" then "" else instruction + GAP
  }

  function Prompt(launch: Launch): string {
    BeforeBlock(launch) + Block(launch)
  }

  /** `routine_prompt` */
  method PrintPrompt(launch: Launch) returns (prompt: string)
    ensures prompt == Prompt(launch)
  {
    hide Trim, OWNER_MARKER, MARKER_END, EVENT_CONTEXT_OPEN, EVENT_CONTEXT_CLOSE;
    prompt := Trim(launch.instruction);
    if prompt != "" {
      prompt := prompt + "\n\n";
    }
    var before := prompt;
    prompt := prompt + (OWNER_MARKER + launch.ownerKind + ":" + launch.ownerPath + MARKER_END);
    if launch.eventContext.Some? {
      prompt := prompt + "\n";
      prompt := prompt + EVENT_CONTEXT_OPEN;
      prompt := prompt + launch.eventContext.value;
      prompt := prompt + EVENT_CONTEXT_CLOSE;
    }
    assert prompt == before + Block(launch);
  }

  // ----- Stripping

  /** A place for a block: the start of the text or after white space. */
  predicate IsPlace(text: string, start: nat) {
    start <= |text| && (start == 0 || IsWhite(text[start - 1]))
  }

  function Places(text: string, starts: seq<nat>): (places: seq<nat>)
    ensures forall s :: s in places <==> s in starts && IsPlace(text, s)
  {
    if starts == [] then []
    else (if IsPlace(text, starts[0]) then [starts[0]] else []) + Places(text, starts[1..])
  }

  /** The longest start of an owner marker, of at most `length` characters,
      that the text ends with. */
  function CutMarker(text: string, length: nat): (r: Option<nat>)
    requires length < |OWNER_MARKER|
    ensures r.Some? ==> r.value < |text| <= r.value + length && text[r.value..] <= OWNER_MARKER
  {
    if length == 0 then None
    else if length <= |text| && text[|text| - length..] == OWNER_MARKER[..length] then Some(|text| - length)
    else CutMarker(text, length - 1)
  }

  /** `block_starts` */
  function BlockStarts(text: string, cut: bool): seq<nat> {
    var marker := if cut then CutMarker(text, |OWNER_MARKER| - 1) else None;
    Places(text, MatchIndices(text, OWNER_MARKER) + (if marker.Some? then [marker.value] else []))
  }

  predicate IsBlock(text: string, start: nat, found: End) {
    start <= |text| && BlockEnd(text[start..]) == Some(found)
  }

  /** The first of `starts` where the text is a block of the kind `found`. */
  function FirstBlock(text: string, starts: seq<nat>, found: End): (r: Option<nat>)
    ensures r.None? ==> forall s :: s in starts ==> !IsBlock(text, s, found)
    ensures r.Some? ==> r.value in starts && IsBlock(text, r.value, found)
  {
    if starts == [] then None
    else if IsBlock(text, starts[0], found) then Some(starts[0])
    else FirstBlock(text, starts[1..], found)
  }

  /** `strip_routine_block` */
  function StripBlock(text: string, end: End): (r: string)
    ensures r <= text
  {
    var starts := BlockStarts(text, end == Cut);
    match FirstBlock(text, starts, Whole)
    case Some(start) => TrimEnd(text[..start])
    case None =>
      if end == Cut then
        match FirstBlock(text, starts, Cut)
        case Some(start) => TrimEnd(text[..start])
        case None => text
      else text
  }

  lemma {:induction false} PlacesIncrease(text: string, starts: seq<nat>)
    requires Increasing(starts)
    ensures Increasing(Places(text, starts))
  {
    if starts != [] {
      PlacesIncrease(text, starts[1..]);
      var rest := Places(text, starts[1..]);
      forall j | 0 <= j < |rest| ensures starts[0] < rest[j] {
        assert rest[j] in rest;
      }
    }
  }

  lemma {:induction false} FirstIsLeast(text: string, starts: seq<nat>, found: End, start: nat)
    requires Increasing(starts) && start in starts && IsBlock(text, start, found)
    ensures FirstBlock(text, starts, found).Some? && FirstBlock(text, starts, found).value <= start
  {
    hide IsBlock;
    if start != starts[0] {
      assert start in starts[1..];
      FirstIsLeast(text, starts[1..], found, start);
    }
  }

  /** A cut marker lies after every whole one. */
  lemma BlockStartsIncrease(text: string, cut: bool)
    ensures Increasing(BlockStarts(text, cut))
    ensures forall s: nat :: s in BlockStarts(text, cut) && At(text, OWNER_MARKER, s) <==>
                             IsPlace(text, s) && At(text, OWNER_MARKER, s)
    ensures forall s: nat :: s in BlockStarts(text, cut) && !At(text, OWNER_MARKER, s) ==>
              cut && CutMarker(text, |OWNER_MARKER| - 1) == Some(s)
  {
    hide Places, At, CutMarker, IsPlace, MatchIndices;
    OwnerTag();
    TagFacts(OWNER_MARKER);
    MatchIndicesFindAll(text, OWNER_MARKER);
    var starts := MatchIndices(text, OWNER_MARKER);
    var marker := if cut then CutMarker(text, |OWNER_MARKER| - 1) else None;
    var all := starts + (if marker.Some? then [marker.value] else []);
    if marker.Some? {
      forall i | 0 <= i < |starts| ensures starts[i] < marker.value {
        assert starts[i] in starts;
        MatchFits(text, OWNER_MARKER, starts[i]);
      }
    }
    assert Increasing(all);
    PlacesIncrease(text, all);
  }

  /** What is stripped when the block at `start` is the first of its kind. */
  lemma StripsWhole(text: string, end: End, start: nat)
    requires At(text, OWNER_MARKER, start) && IsPlace(text, start) && IsBlock(text, start, Whole)
    requires forall s: nat :: s < start && At(text, OWNER_MARKER, s) ==> !IsBlock(text, s, Whole)
    ensures StripBlock(text, end) == TrimEnd(text[..start])
  {
    hide Places, At, CutMarker, IsPlace, MatchIndices, IsBlock, BlockStarts, FirstBlock, Increasing;
    var starts := BlockStarts(text, end == Cut);
    BlockStartsIncrease(text, end == Cut);
    FirstIsLeast(text, starts, Whole, start);
    var first := FirstBlock(text, starts, Whole).value;
    if first < start {
      CutIsLater(text, end == Cut, start, first);
    }
  }

  lemma CutIsLater(text: string, cut: bool, start: nat, s: nat)
    requires At(text, OWNER_MARKER, start) && s in BlockStarts(text, cut) && s < start
    ensures At(text, OWNER_MARKER, s)
  {
    hide At, CutMarker, BlockStarts;
    BlockStartsIncrease(text, cut);
    OwnerTag();
    MatchFits(text, OWNER_MARKER, start);
  }

  /** Stripping takes a block and the white space before it, or nothing. */
  lemma StripSplits(text: string, end: End) returns (start: nat)
    ensures StripBlock(text, end) == text
         || (start < |text| && StripBlock(text, end) == TrimEnd(text[..start]) && BlockEnd(text[start..]).Some?
             && (end == Whole ==> BlockEnd(text[start..]) == Some(Whole)))
  {
    hide BlockStarts, BlockEnd, TrimEnd;
    var starts := BlockStarts(text, end == Cut);
    start := 0;
    if FirstBlock(text, starts, Whole).Some? {
      start := FirstBlock(text, starts, Whole).value;
      StartsBefore(text, end == Cut, start);
    } else if end == Cut && FirstBlock(text, starts, Cut).Some? {
      start := FirstBlock(text, starts, Cut).value;
      StartsBefore(text, end == Cut, start);
    }
  }

  lemma StartsBefore(text: string, cut: bool, s: nat)
    requires s in BlockStarts(text, cut)
    ensures s < |text|
  {
    hide At, CutMarker, BlockStarts;
    BlockStartsIncrease(text, cut);
    OwnerTag();
    if At(text, OWNER_MARKER, s) { MatchFits(text, OWNER_MARKER, s); }
  }

  /** No marker fits in a shorter text. */
  lemma NoMatches(text: string)
    requires |text| < |OWNER_MARKER|
    ensures MatchIndices(text, OWNER_MARKER) == []
  {
    MatchIndicesFindAll(text, OWNER_MARKER);
    var found := MatchIndices(text, OWNER_MARKER);
    if found != [] {
      assert found[0] in found;
      MatchFits(text, OWNER_MARKER, found[0]);
    }
  }

  // ----- Where tags occur

  /** No tag runs across a place where a line or another tag starts. */
  lemma OccursOnOneSide(a: string, d: string, tag: string, k: nat)
    requires IsTag(tag) && At(a + d, tag, k)
    requires d != "" && (d[0] == '<' || d[0] == '\n')
    ensures (k + |tag| <= |a| && At(a, tag, k)) || (|a| <= k && At(d, tag, k - |a|))
  {
    var s := a + d;
    if k + |tag| <= |a| {
      assert s[k..k + |tag|] == a[k..k + |tag|];
    } else if |a| <= k {
      assert s[k..k + |tag|] == d[k - |a|..k - |a| + |tag|];
    } else {
      InteriorIsPlain(s, tag, k, |a|);
    }
  }

  lemma InteriorIsPlain(s: string, tag: string, k: nat, i: nat)
    requires IsTag(tag) && At(s, tag, k) && k < i < k + |tag|
    ensures IsPlain(s[i])
  {
    assert s[i] == s[k..k + |tag|][i - k];
  }

  lemma OccurrenceStarts(s: string, tag: string, k: nat)
    requires IsTag(tag) && At(s, tag, k)
    ensures k < |s| && s[k] == '<'
    ensures 1 < |tag| ==> k + 1 < |s| && s[k + 1] == tag[1]
  {
    assert s[k] == s[k..k + |tag|][0];
    assert 1 < |tag| ==> s[k + 1] == s[k..k + |tag|][1];
  }

  lemma {:induction false} EndsAreCounted(text: string, tag: string, e: nat)
    requires 0 < e && EndsAt(text, tag, e)
    ensures Count(text, tag, 0) > 0
    decreases |text|
  {
    if e < |text| {
      EndsInPrefix(text[..|text| - 1], text[|text| - 1..], tag, e);
      assert text[..|text| - 1] + text[|text| - 1..] == text;
      EndsAreCounted(text[..|text| - 1], tag, e);
    }
  }

  lemma {:induction false} LastEndEnds(text: string, tag: string)
    requires Count(text, tag, 0) > 0
    ensures EndsAt(text, tag, LastEnd(text, tag, 0))
    decreases |text|
  {
    if !EndsAt(text, tag, |text|) {
      var before := text[..|text| - 1];
      LastEndEnds(before, tag);
      EndsInPrefix(before, text[|text| - 1..], tag, LastEnd(before, tag, 0));
      assert before + text[|text| - 1..] == text;
    }
  }

  lemma CountContains(text: string, tag: string)
    requires IsTag(tag)
    ensures Count(text, tag, 0) > 0 <==> Contains(text, tag)
  {
    hide IsTag, At, EndsAt, Count, LastEnd;
    TagNotEmpty(tag);
    if Count(text, tag, 0) > 0 {
      LastEndEnds(text, tag);
      EndIsAt(text, tag, LastEnd(text, tag, 0));
    }
    if Contains(text, tag) {
      var i :| 0 <= i <= |text| && At(text, tag, i);
      AtIsEnd(text, tag, i);
      EndsAreCounted(text, tag, i + |tag|);
    }
  }

  lemma EndIsAt(text: string, tag: string, e: nat)
    requires EndsAt(text, tag, e)
    ensures |tag| <= e <= |text| && At(text, tag, e - |tag|)
  {
  }

  lemma AtIsEnd(text: string, tag: string, i: nat)
    requires At(text, tag, i)
    ensures EndsAt(text, tag, i + |tag|)
  {
  }

  // ----- Lookalikes before the block

  /** A block as a launch prints it: an owner marker at its start, and either
      the end of a marker at its end or an opening tag within. */
  predicate IsSealed(block: string) {
    && OWNER_MARKER <= block
    && (Contains(block, EVENT_CONTEXT_OPEN)
        || (|MARKER_END| <= |block| && block[|block| - |MARKER_END|..] == MARKER_END))
  }

  /** Text up to the empty line before a block, none or ending in no white space. */
  predicate IsTrimmed(text: string) {
    text == "" || !IsWhite(text[|text| - 1])
  }

  lemma BlockIsText(block: string)
    requires OWNER_MARKER <= block
    ensures |block| >= 17 && block[0] == '<' && block[1] == '!' && !IsWhite(block[0]) && !IsWhite(block[1])
  {
    OwnerTag();
    TagsDiffer();
    assert block[0] == OWNER_MARKER[0] && block[1] == OWNER_MARKER[1];
  }

  /** A marker before the gap ends before it: no marker has a newline. */
  lemma MarkerBeforeGap(j: string, block: string, prefix: string, valid: string -> bool) returns (rest: string)
    requires IsTag(prefix) && IsTrimmed(j)
    requires RoutineMarker(j + (GAP + block), prefix, valid).Finished?
    ensures RoutineMarker(j + (GAP + block), prefix, valid).rest == rest + (GAP + block) && IsTrimmed(rest)
  {
    hide RoutineMarker;
    TagFacts(prefix);
    MarkerEnd();
    var text := j + (GAP + block);
    var value := FinishedParts(text, prefix, valid);
    var m := prefix + (value + MARKER_END);
    var after := RoutineMarker(text, prefix, valid).rest;
    assert text == m + after;
    assert text[|j|] == '\n';
    assert '\n' !in m;
    rest := j[|m|..];
    assert after == text[|m|..];
  }

  /** What follows a marker before the gap, or the block itself. */
  lemma TrimBeforeGap(j: string, block: string) returns (rest: string)
    requires IsTrimmed(j) && OWNER_MARKER <= block
    ensures TrimStart(j + (GAP + block)) == (if rest == "" then block else rest + (GAP + block))
    ensures IsTrimmed(rest) && (rest != "" ==> !IsWhite(rest[0]))
  {
    hide OWNER_MARKER;
    BlockIsText(block);
    TrimStartMore(j, GAP + block);
    rest := TrimStart(j);
    TrimStartSplits(j);
    TrimStartIsUnique(GAP, block);
  }

  /** A context that runs into a block as a launch prints it is not whole: the
      block opens another one, or leaves text after the closing tag. */
  lemma SealedContext(before: string, block: string)
    requires IsSealed(block)
    ensures ContextEnd(Pushed(FRESH, before + block)) != Some(Whole)
  {
    hide Pushed, Count, LastEnd, TextAfter, Carries, IsTag;
    hide OWNER_MARKER, LAUNCH_MARKER, MARKER_END, EVENT_CONTEXT_OPEN, EVENT_CONTEXT_CLOSE, MARKERS_LIMIT;
    var text := before + block;
    OnePushSummarises(text);
    OpenTag();
    CloseTag();
    if Contains(block, EVENT_CONTEXT_OPEN) {
      var i :| 0 <= i <= |block| && At(block, EVENT_CONTEXT_OPEN, i);
      assert text[|before| + i..|before| + i + |EVENT_CONTEXT_OPEN|] == EVENT_CONTEXT_OPEN;
      AtContains(text, EVENT_CONTEXT_OPEN, |before| + i);
      CountContains(text, EVENT_CONTEXT_OPEN);
    } else if Count(text, EVENT_CONTEXT_CLOSE, 0) > 0 {
      MarkerEnd();
      assert text[|text| - 4..] == MARKER_END;
      EndIsAfterClose(text);
    }
  }

  lemma EndIsAfterClose(text: string)
    requires 4 <= |text| && text[|text| - 4..] == MARKER_END && Count(text, EVENT_CONTEXT_CLOSE, 0) > 0
    ensures TextAfter(text, EVENT_CONTEXT_CLOSE)
  {
    hide Count, LastEnd, Bytes, IsTag, EndsAt, AllWhite;
    hide OWNER_MARKER, LAUNCH_MARKER, MARKER_END, EVENT_CONTEXT_OPEN, EVENT_CONTEXT_CLOSE, MARKERS_LIMIT, TextAfter, IsWhite;
    EndsInMarker(text);
    var e := LastEnd(text, EVENT_CONTEXT_CLOSE, 0);
    LastEndEnds(text, EVENT_CONTEXT_CLOSE);
    CloseIsNotMarker(text, e);
    LastNotWhite(text, e);
    TextIsAfter(text, EVENT_CONTEXT_CLOSE);
  }

  lemma CloseIsNotMarker(text: string, e: nat)
    requires EndsAt(text, EVENT_CONTEXT_CLOSE, e) && 4 <= |text| && text[|text| - 2] == '-'
    ensures e < |text|
  {
    hide EVENT_CONTEXT_CLOSE, IsTag;
    CloseTag();
    TagsDiffer();
    CharOfEnd(text, EVENT_CONTEXT_CLOSE, e, 20);
  }

  lemma EndsInMarker(text: string)
    requires 4 <= |text| && text[|text| - 4..] == MARKER_END
    ensures text[|text| - 3] == '-' && text[|text| - 2] == '-' && text[|text| - 1] == '>' && !IsWhite('>')
  {
    MarkerEnd();
    assert text[|text| - 3] == text[|text| - 4..][1];
  }

  lemma TextIsAfter(text: string, tag: string)
    requires Count(text, tag, 0) > 0 && !AllWhite(text[LastEnd(text, tag, 0)..])
    ensures TextAfter(text, tag)
  {
  }

  lemma CharOfEnd(text: string, tag: string, e: nat, i: nat)
    requires EndsAt(text, tag, e) && i < |tag|
    ensures text[e - |tag| + i] == tag[i]
  {
    assert text[e - |tag| + i] == text[e - |tag|..e][i];
  }

  lemma LastNotWhite(text: string, e: nat)
    requires e < |text| && !IsWhite(text[|text| - 1])
    ensures !AllWhite(text[e..])
  {
    assert text[e..][|text| - 1 - e] == text[|text| - 1];
  }

  lemma AfterMarkersCases(text: string, rest: string)
    requires IsSuffix(rest, text) && rest != "" && !IsWhite(rest[0])
    ensures match AfterMarkers(text, rest)
            case Context(at) => EVENT_CONTEXT_OPEN <= rest && text[at..] == rest[|EVENT_CONTEXT_OPEN|..]
            case Ended(end) => end != Some(Whole)
  {
    hide TrimEnd, Bytes, AllWhite;
    hide EVENT_CONTEXT_OPEN, MARKERS_LIMIT;
    FirstIsText(rest);
    var at := |text| - (|rest| - |EVENT_CONTEXT_OPEN|);
    if EVENT_CONTEXT_OPEN <= rest {
      assert text[at..] == text[|text| - |rest|..][|EVENT_CONTEXT_OPEN|..];
    }
  }

  lemma FirstIsText(s: string)
    requires s != "" && !IsWhite(s[0])
    ensures TrimEnd(s) != ""
  {
    AllWhiteTrims(s);
  }

  /** The rest of a text after its markers, when a printed block follows. */
  lemma NotWholeAfterMarkers(text: string, j: string, block: string)
    requires IsSealed(block) && IsTrimmed(j) && (j != "" ==> !IsWhite(j[0]))
    requires IsSuffix(if j == "" then block else j + (GAP + block), text)
    ensures match AfterMarkers(text, if j == "" then block else j + (GAP + block))
            case Context(at) => ContextEnd(Pushed(FRESH, text[at..])) != Some(Whole)
            case Ended(end) => end != Some(Whole)
  {
    hide Pushed, IsSealed, AfterMarkers, IsTrimmed, IsTag;
    hide OWNER_MARKER, LAUNCH_MARKER, MARKER_END, EVENT_CONTEXT_OPEN, EVENT_CONTEXT_CLOSE, MARKERS_LIMIT;
    var rest := if j == "" then block else j + (GAP + block);
    SealedStarts(block);
    BlockIsText(block);
    assert rest[0] == (if j == "" then block[0] else j[0]);
    AfterMarkersCases(text, rest);
    if AfterMarkers(text, rest).Context? {
      OpenBeforeGap(j, block);
      var before := j[|EVENT_CONTEXT_OPEN|..] + GAP;
      assert rest[|EVENT_CONTEXT_OPEN|..] == before + block;
      SealedContext(before, block);
    }
  }

  lemma SealedStarts(block: string)
    requires IsSealed(block)
    ensures OWNER_MARKER <= block
  {
  }

  lemma OpenBeforeGap(j: string, block: string)
    requires OWNER_MARKER <= block
    requires EVENT_CONTEXT_OPEN <= if j == "" then block else j + (GAP + block)
    ensures j != "" && |EVENT_CONTEXT_OPEN| <= |j|
  {
    hide OWNER_MARKER, LAUNCH_MARKER, MARKER_END, EVENT_CONTEXT_OPEN, EVENT_CONTEXT_CLOSE, MARKERS_LIMIT;
    OpenTag();
    TagsDiffer();
    BlockIsText(block);
    if j != "" {
      TagFacts(EVENT_CONTEXT_OPEN);
      var rest := j + (GAP + block);
      assert rest[|j|] == '\n';
      assert rest == EVENT_CONTEXT_OPEN + rest[|EVENT_CONTEXT_OPEN|..];
    } else {
      BlockOpensNoContext(block);
    }
  }

  lemma BlockOpensNoContext(block: string)
    requires OWNER_MARKER <= block
    ensures !(EVENT_CONTEXT_OPEN <= block)
  {
    BlockIsText(block);
    TagsDiffer();
  }

  /** Whatever stands before the empty line and the block — lookalike markers,
      whole blocks, tags — is not a whole block together with them. */
  lemma LookalikeIsNotWhole(j: string, block: string)
    requires IsSealed(block) && IsTrimmed(j)
    ensures BlockEnd(j + (GAP + block)) != Some(Whole)
  {
    hide Pushed, IsSealed, AfterMarkers, RoutineMarker, IsTrimmed, Bytes, TrimStart, IsTag;
    hide OWNER_MARKER, LAUNCH_MARKER, MARKER_END, EVENT_CONTEXT_OPEN, EVENT_CONTEXT_CLOSE, MARKERS_LIMIT;
    var text := j + (GAP + block);
    OwnerTag();
    SealedStarts(block);
    if RoutineMarker(text, OWNER_MARKER, IsOwner).Finished? {
      var owned := MarkerBeforeGap(j, block, OWNER_MARKER, IsOwner);
      var rest := TrimBeforeGap(owned, block);
      MarkerSuffix(text, OWNER_MARKER, IsOwner);
      LookalikeAfterOwner(text, rest, block);
    }
  }

  /** What a marker and a trim leave is the end of the text. */
  lemma MarkerSuffix(text: string, prefix: string, valid: string -> bool)
    requires RoutineMarker(text, prefix, valid).Finished?
    ensures IsSuffix(TrimStart(RoutineMarker(text, prefix, valid).rest), text)
  {
    hide RoutineMarker, TrimStart;
    var value := FinishedParts(text, prefix, valid);
    var rest := RoutineMarker(text, prefix, valid).rest;
    TrimStartSplits(rest);
    var w := rest[..|rest| - |TrimStart(rest)|];
    assert text == (prefix + (value + MARKER_END) + w) + TrimStart(rest);
  }

  predicate IsSuffix(s: string, text: string) {
    |s| <= |text| && text[|text| - |s|..] == s
  }

  lemma SuffixOfSuffix(a: string, b: string, c: string)
    requires IsSuffix(a, b) && IsSuffix(b, c)
    ensures IsSuffix(a, c)
  {
    assert c[|c| - |a|..] == c[|c| - |b|..][|b| - |a|..];
  }

  lemma LookalikeAfterOwner(text: string, j: string, block: string)
    requires IsSealed(block) && IsTrimmed(j) && (j != "" ==> !IsWhite(j[0]))
    requires IsSuffix(if j == "" then block else j + (GAP + block), text)
    ensures match AfterOwner(text, if j == "" then block else j + (GAP + block))
            case Context(at) => ContextEnd(Pushed(FRESH, text[at..])) != Some(Whole)
            case Ended(end) => end != Some(Whole)
  {
    hide Pushed, IsSealed, AfterMarkers, RoutineMarker, Bytes, TrimStart, IsTag, IsTrimmed, ContextEnd, IsSuffix;
    hide OWNER_MARKER, LAUNCH_MARKER, MARKER_END, EVENT_CONTEXT_OPEN, EVENT_CONTEXT_CLOSE, MARKERS_LIMIT;
    var rest := if j == "" then block else j + (GAP + block);
    LaunchTag();
    SealedStarts(block);
    var m := RoutineMarker(rest, LAUNCH_MARKER, IsLaunch);
    if m.Absent? {
      NotWholeAfterMarkers(text, j, block);
    } else if m.Finished? {
      if j == "" {
        BlockIsNoLaunch(block);
      } else {
        var launched := MarkerBeforeGap(j, block, LAUNCH_MARKER, IsLaunch);
        var left := TrimBeforeGap(launched, block);
        MarkerSuffix(rest, LAUNCH_MARKER, IsLaunch);
        SuffixOfSuffix(TrimStart(m.rest), rest, text);
        NotWholeAfterMarkers(text, left, block);
      }
    }
  }

  lemma BlockIsNoLaunch(block: string)
    requires OWNER_MARKER <= block
    ensures !RoutineMarker(block, LAUNCH_MARKER, IsLaunch).Finished?
  {
    hide ReadValue, Bytes;
    OwnerTag();
    LaunchTag();
    TagsDiffer();
    assert block[11] == OWNER_MARKER[11];
  }

  // ----- The block as printed

  /** What a launch must keep to for its block to be found again. */
  predicate IsPrintable(launch: Launch) {
    '\n' !in OwnerValue(launch) && IsOwner(OwnerValue(launch)) && FitsLimit(launch)
  }

  /** The limit, and a context without tags of its own. */
  predicate FitsLimit(launch: Launch) {
    && Bytes(OWNER_MARKER + (OwnerValue(launch) + MARKER_END + ContextStart(launch.eventContext))) <= MARKERS_LIMIT
    && match launch.eventContext
       case Some(text) => !Contains(text, EVENT_CONTEXT_OPEN) && !Contains(text, EVENT_CONTEXT_CLOSE)
       case None => true
  }

  /** What opens the context, if there is one. */
  function ContextStart(context: Option<string>): string {
    if context.Some? then "\n" + EVENT_CONTEXT_OPEN else ""
  }

  /** An owner value is one when its kind starts it and something follows a
      colon: of the kind, or the path. */
  lemma OwnerValueIsOwner(launch: Launch)
    ensures IsOwner(OwnerValue(launch)) <==>
              && launch.ownerKind != "" && launch.ownerKind[0] != ':'
              && (launch.ownerPath != "" || Contains(launch.ownerKind, ":"))
  {
    var kind, path := launch.ownerKind, launch.ownerPath;
    var value := OwnerValue(launch);
    var colon := Find(kind, ":");
    assert value == kind + (":" + path);
    if colon.Some? {
      InPrefix(kind, ":" + path, ":", colon.value);
      forall j | 0 <= j < colon.value ensures !At(value, ":", j) { InPrefix(kind, ":" + path, ":", j); }
      FirstIsUnique(value, ":", colon.value);
      assert kind[colon.value] == ':';
      assert colon.value > 0 ==> !At(kind, ":", 0);
      assert kind[0] == ':' <==> kind[0..1] == ":";
    } else {
      forall j | 0 <= j < |kind| ensures !At(value, ":", j) {
        InPrefix(kind, ":" + path, ":", j);
      }
      assert value[|kind|..|kind| + 1] == ":";
      FirstIsUnique(value, ":", |kind|);
      assert kind != "" ==> (kind[0] == ':' <==> kind[0..1] == ":");
    }
  }

  lemma OwnerValueRead(launch: Launch)
    requires !Contains(OwnerValue(launch), MARKER_END)
    ensures RoutineMarker(Block(launch), OWNER_MARKER, IsOwner) ==
              if '\n' !in OwnerValue(launch) && IsOwner(OwnerValue(launch))
              then Finished(ContextTail(launch.eventContext)) else Absent
  {
    hide Contains, RoutineMarker, IsOwner, OwnerValue, ContextTail;
    hide OWNER_MARKER, LAUNCH_MARKER, MARKER_END, EVENT_CONTEXT_OPEN, EVENT_CONTEXT_CLOSE, MARKERS_LIMIT;
    var value, tail := OwnerValue(launch), ContextTail(launch.eventContext);
    var v := value + MARKER_END + tail;
    MarkerOpened(OWNER_MARKER, v, IsOwner);
    EndIsFound(value, tail);
    assert v[..|value|] == value && v[|value| + |MARKER_END|..] == tail;
  }

  /** A closing tag put after a text adds itself and nothing else. */
  lemma CloseAdds(text: string)
    ensures Count(text + EVENT_CONTEXT_CLOSE, EVENT_CONTEXT_OPEN, 0) > 0 <==> Contains(text, EVENT_CONTEXT_OPEN)
    ensures Count(text + EVENT_CONTEXT_CLOSE, OWNER_MARKER, 0) > 0 <==> Contains(text, OWNER_MARKER)
  {
    hide Count, Contains, IsTag;
    OpenTag();
    OwnerTag();
    CountContains(text + EVENT_CONTEXT_CLOSE, EVENT_CONTEXT_OPEN);
    CountContains(text + EVENT_CONTEXT_CLOSE, OWNER_MARKER);
    NotInClose(text, EVENT_CONTEXT_OPEN);
    NotInClose(text, OWNER_MARKER);
  }

  lemma NotInClose(text: string, tag: string)
    requires IsTag(tag) && 1 < |tag| && tag[1] != '/'
    ensures Contains(text + EVENT_CONTEXT_CLOSE, tag) <==> Contains(text, tag)
  {
    hide EVENT_CONTEXT_CLOSE, IsTag, At;
    var all := text + EVENT_CONTEXT_CLOSE;
    if Contains(all, tag) {
      var i :| 0 <= i <= |all| && At(all, tag, i);
      BeforeClose(text, tag, i);
    }
    if Contains(text, tag) {
      var i :| 0 <= i <= |text| && At(text, tag, i);
      MatchFits(text, tag, i);
      InPrefix(text, EVENT_CONTEXT_CLOSE, tag, i);
      AtContains(all, tag, i);
    }
  }

  lemma BeforeClose(text: string, tag: string, i: nat)
    requires IsTag(tag) && 1 < |tag| && tag[1] != '/' && At(text + EVENT_CONTEXT_CLOSE, tag, i)
    ensures i <= |text| && At(text, tag, i)
  {
    hide EVENT_CONTEXT_CLOSE, IsTag, At;
    CloseTag();
    TagsDiffer();
    TagStarts(EVENT_CONTEXT_CLOSE);
    OccursOnOneSide(text, EVENT_CONTEXT_CLOSE, tag, i);
    if |text| <= i { NotAtClose(tag, i - |text|); }
  }

  lemma NotAtClose(tag: string, k: nat)
    requires IsTag(tag) && 1 < |tag| && tag[1] != '/'
    ensures !At(EVENT_CONTEXT_CLOSE, tag, k)
  {
    hide EVENT_CONTEXT_CLOSE, IsTag, At;
    CloseTag();
    TagsDiffer();
    if At(EVENT_CONTEXT_CLOSE, tag, k) {
      OccurrenceStarts(EVENT_CONTEXT_CLOSE, tag, k);
      OneStart(EVENT_CONTEXT_CLOSE, k);
    }
  }

  lemma TagStarts(tag: string)
    requires IsTag(tag)
    ensures tag != "" && tag[0] == '<'
  {
  }

  lemma OneStart(tag: string, k: nat)
    requires IsTag(tag) && k < |tag| && tag[k] == '<'
    ensures k == 0
  {
  }

  /** In a text and a closing tag after it, the places where closing tags end. */
  lemma CloseEnds(text: string, e: nat)
    ensures EndsAt(text + EVENT_CONTEXT_CLOSE, EVENT_CONTEXT_CLOSE, e) <==>
              EndsAt(text, EVENT_CONTEXT_CLOSE, e) || e == |text| + 22
  {
    hide EVENT_CONTEXT_CLOSE, IsTag, At;
    CloseTag();
    var tag := EVENT_CONTEXT_CLOSE;
    if e <= |text| {
      EndsInPrefix(text, tag, tag, e);
    } else if EndsAt(text + tag, tag, e) {
      OccursOnOneSide(text, tag, tag, e - 22);
      MatchFits(tag, tag, e - 22 - |text|);
    }
    assert tag[..22] == tag;
  }

  /** Whether a printed context, up to its closing tag or cut before that, is
      whole: exactly when it holds neither tag of its own. */
  lemma PrintedContext(text: string)
    ensures ContextEnd(Pushed(FRESH, text + EVENT_CONTEXT_CLOSE)) == Some(Whole) <==>
              !Contains(text, EVENT_CONTEXT_OPEN) && !Contains(text, EVENT_CONTEXT_CLOSE)
  {
    hide Pushed, Count, Contains, Carries, AllWhite, IsTag, LastEnd, EndsAt;
    hide OWNER_MARKER, LAUNCH_MARKER, MARKER_END, EVENT_CONTEXT_OPEN, EVENT_CONTEXT_CLOSE, MARKERS_LIMIT;
    var all := text + EVENT_CONTEXT_CLOSE;
    OnePushSummarises(all);
    CloseAdds(text);
    CloseTag();
    CountContains(text, EVENT_CONTEXT_CLOSE);
    ClosesAfter(text);
    assert all[|all|..] == "";
    NoneIsWhite();
  }

  /** The one occurrence of `tag` starts at `i`. */
  ghost predicate OnlyAt(text: string, tag: string, i: nat) {
    At(text, tag, i) && forall j: nat :: At(text, tag, j) ==> j == i
  }

  lemma CountsOne(text: string, tag: string)
    requires IsTag(tag)
    ensures Count(text, tag, 0) == 1 <==> exists i: nat :: OnlyAt(text, tag, i)
    ensures forall i: nat :: OnlyAt(text, tag, i) ==> Count(text, tag, 0) == 1 && LastEnd(text, tag, 0) == i + |tag|
  {
    hide Count, LastEnd, MatchIndices, Unbordered, EndsAfter, EndsAt;
    TagFacts(tag);
    FoundIsCount(text, tag, 0);
    MatchIndicesFindAll(text, tag);
    var starts, ends := MatchIndices(text, tag), Found(text, tag, 0);
    SameNumber(starts, |tag|);
    if |ends| == 1 {
      assert starts[0] in starts;
      forall j: nat | At(text, tag, j) ensures j == starts[0] {
        assert j in starts;
      }
      assert OnlyAt(text, tag, starts[0]);
    }
    forall i: nat | OnlyAt(text, tag, i) ensures Count(text, tag, 0) == 1 && LastEnd(text, tag, 0) == i + |tag| {
      assert i in starts;
      OneOf(starts, i);
    }
  }

  lemma FirstBeforeLast(s: seq<nat>)
    requires Increasing(s)
    ensures |s| > 1 ==> s[0] < s[|s| - 1]
  {
  }

  lemma OneOf(s: seq<nat>, i: nat)
    requires Increasing(s) && i in s && forall j :: j in s ==> j == i
    ensures s == [i]
  {
    FirstBeforeLast(s);
    forall k | 0 <= k < |s| ensures s[k] == i {
      assert s[k] in s;
    }
  }

  lemma {:induction false} SameNumber(starts: seq<nat>, length: nat)
    requires length > 0
    ensures |EndsAfter(starts, length, 0)| == |starts|
    ensures starts != [] ==> EndsAfter(starts, length, 0)[0] == starts[0] + length
  {
    if starts != [] { SameNumber(starts[1..], length); }
  }

  /** A block whose context opened is whole exactly when the context holds one
      closing tag, with nothing but white space after it, and no opening tag; it
      is cut exactly when it holds neither tag nor the start of another block. */
  lemma OpenedBlockEnds(text: string)
    requires BlockMarkers(text).Context?
    ensures var context, tag := text[BlockMarkers(text).at..], EVENT_CONTEXT_CLOSE;
            && (BlockEnd(text) == Some(Whole) <==>
                  && !Contains(context, EVENT_CONTEXT_OPEN)
                  && exists i: nat :: OnlyAt(context, tag, i) && i + |tag| <= |context| && AllWhite(context[i + |tag|..]))
            && (BlockEnd(text) == Some(Cut) <==>
                  !Contains(context, EVENT_CONTEXT_OPEN) && !Contains(context, tag) && !Contains(context, OWNER_MARKER))
  {
    hide Pushed, Count, Contains, Carries, AllWhite, IsTag, LastEnd, EndsAt, OnlyAt, BlockMarkers;
    hide OWNER_MARKER, LAUNCH_MARKER, MARKER_END, EVENT_CONTEXT_OPEN, EVENT_CONTEXT_CLOSE, MARKERS_LIMIT;
    var context := text[BlockMarkers(text).at..];
    OnePushSummarises(context);
    CloseTag();
    OpenTag();
    OwnerTag();
    CountContains(context, EVENT_CONTEXT_OPEN);
    CountContains(context, EVENT_CONTEXT_CLOSE);
    CountContains(context, OWNER_MARKER);
    CountsOne(context, EVENT_CONTEXT_CLOSE);
  }

  lemma NoneIsWhite()
    ensures AllWhite("")
  {
  }

  lemma ClosesAfter(text: string)
    ensures Count(text + EVENT_CONTEXT_CLOSE, EVENT_CONTEXT_CLOSE, 0) == Count(text, EVENT_CONTEXT_CLOSE, 0) + 1
    ensures LastEnd(text + EVENT_CONTEXT_CLOSE, EVENT_CONTEXT_CLOSE, 0) == |text + EVENT_CONTEXT_CLOSE|
  {
    hide EVENT_CONTEXT_CLOSE, EndsAt;
    CloseTag();
    var tag := EVENT_CONTEXT_CLOSE;
    CountSplits(text, tag, tag);
    CloseEnds(text, |text| + 22);
    assert tag == tag[..21] + tag[21..];
    CloseNotYet(text, 21);
    CountStep(text + tag[..21], tag[21..], tag, |text|);
    assert text + tag[..21] + tag[21..] == text + tag;
  }

  lemma {:induction false} CloseNotYet(text: string, n: nat)
    requires n <= 21
    ensures Count(text + EVENT_CONTEXT_CLOSE[..n], EVENT_CONTEXT_CLOSE, |text|) == 0
  {
    hide EVENT_CONTEXT_CLOSE, EndsAt;
    CloseTag();
    var tag := EVENT_CONTEXT_CLOSE;
    if n == 0 {
      assert text + tag[..0] == text;
      CountNone(text, tag);
    } else {
      CloseNotYet(text, n - 1);
      assert text + tag[..n - 1] + tag[n - 1..n] == text + tag[..n];
      CountStep(text + tag[..n - 1], tag[n - 1..n], tag, |text|);
      assert text + tag == (text + tag[..n]) + tag[n..];
      EndsInPrefix(text + tag[..n], tag[n..], tag, |text| + n);
      CloseEnds(text, |text| + n);
      NoEndsBeyond(text, tag, |text|);
    }
  }
}
