/** The block a Routine launch appends to its instruction: how
    `registry.rs` prints it, recognises it and strips it. */
module RoutineBlock {
  import opened Text

  const OWNER_MARKER: string := "<!-- svode-owner:"
  const LAUNCH_MARKER: string := "<!-- svode-launch:"
  const MARKER_END: string := " -->"
  const EVENT_CONTEXT_OPEN: string := "<svode-event-context>"
  const EVENT_CONTEXT_CLOSE: string := "</svode-event-context>"

  /** Longest part of a block before its event context, in bytes. */
  const MARKERS_LIMIT: nat := 16 * 1024

  /** `RoutineBlockEnd`: a whole block, or one cut short where the text ends. */
  datatype End = Whole | Cut

  // ----- Tags

  predicate Ascii(s: string) {
    forall i :: 0 <= i < |s| ==> s[i] as int < 0x80
  }

  lemma {:induction false} AsciiBytes(s: string)
    requires Ascii(s)
    ensures Bytes(s) == |s|
  {
    if s != "" { AsciiBytes(s[..|s| - 1]); }
  }

  /** A character of a tag after its first. */
  predicate IsPlain(c: char) {
    c as int < 0x80 && c != '<' && c != '\n'
  }

  /** What the tags are made of: nothing in them but their first character
      is `<`, so none overlaps itself or another; they are one line each. */
  predicate IsTag(s: string) {
    && 0 < |s| <= 22 && s[0] == '<' && !IsWhite(s[|s| - 1])
    && forall i :: 0 < i < |s| ==> IsPlain(s[i])
  }

  lemma TagFacts(s: string)
    requires IsTag(s)
    ensures Unbordered(s) && Ascii(s) && '\n' !in s
  {
  }

  lemma OwnerTag()
    ensures IsTag(OWNER_MARKER) && |OWNER_MARKER| == 17
  {
  }

  lemma LaunchTag()
    ensures IsTag(LAUNCH_MARKER) && |LAUNCH_MARKER| == 18
  {
  }

  lemma OpenTag()
    ensures IsTag(EVENT_CONTEXT_OPEN) && |EVENT_CONTEXT_OPEN| == 21
  {
  }

  lemma CloseTag()
    ensures IsTag(EVENT_CONTEXT_CLOSE) && |EVENT_CONTEXT_CLOSE| == 22
  {
  }

  lemma MarkerEnd()
    ensures Unbordered(MARKER_END) && Ascii(MARKER_END) && |MARKER_END| == 4 && '\n' !in MARKER_END
    ensures MARKER_END[1] == '-' && MARKER_END[2] == '-' && MARKER_END[3] == '>'
  {
  }

  lemma TagsDiffer()
    ensures |OWNER_MARKER| == 17 && OWNER_MARKER[1] == '!' && OWNER_MARKER[5] == 's' && OWNER_MARKER[11] == 'o'
    ensures |LAUNCH_MARKER| == 18 && LAUNCH_MARKER[1] == '!' && LAUNCH_MARKER[11] == 'l'
    ensures |EVENT_CONTEXT_OPEN| == 21 && EVENT_CONTEXT_OPEN[1] == 's'
    ensures |EVENT_CONTEXT_CLOSE| == 22 && EVENT_CONTEXT_CLOSE[1] == '/' && EVENT_CONTEXT_CLOSE[20] == 't'
  {
  }

  // ----- Recognising

  /** What `routine_marker` finds at the start of a text: no marker, one the
      text ends in, or a whole one and the text after it. */
  datatype Marker = Absent | Unfinished | Finished(rest: string)

  function RoutineMarker(text: string, prefix: string, valid: string -> bool): (m: Marker)
    ensures m.Finished? ==> |m.rest| + |prefix| <= |text|
  {
    if Bytes(text) < Bytes(prefix) then
      if text != "" && text <= prefix then Unfinished else Absent
    else if !(prefix <= text) then Absent
    else ReadValue(text[|prefix|..], valid)
  }

  /** The value a marker opened and the end of the marker, at the start of `v`. */
  function ReadValue(v: string, valid: string -> bool): (m: Marker)
    ensures m.Finished? ==> |m.rest| <= |v|
  {
    match Find(v, MARKER_END)
    case Some(i) =>
      if '\n' !in v[..i] && valid(v[..i]) then Finished(v[i + |MARKER_END|..]) else Absent
    case None =>
      if '\n' !in v then Unfinished else Absent
  }

  predicate IsOwner(value: string) {
    match Find(value, ":")
    case Some(i) => i > 0 && i + 1 < |value|
    case None => false
  }

  predicate IsLaunch(id: string) {
    id != ""
  }

  /** `block_markers`: where the event context starts once it opened, or what
      the text is without one. */
  datatype Markers = Context(at: nat) | Ended(end: Option<End>)

  function Within(text: string, end: Option<End>): Markers {
    Ended(if Bytes(text) <= MARKERS_LIMIT then end else None)
  }

  /** The part of `block_markers` after the markers, `rest` being what
      follows them in `text`. */
  function AfterMarkers(text: string, rest: string): (m: Markers)
    requires |rest| <= |text|
    ensures m.Context? ==> m.at <= |text|
  {
    if TrimEnd(rest) == "" then Within(text, Some(Whole))
    else if EVENT_CONTEXT_OPEN <= rest then
      var at := |text| - (|rest| - |EVENT_CONTEXT_OPEN|);
      if Bytes(text[..at]) <= MARKERS_LIMIT then Context(at) else Ended(None)
    else
      Within(text, if TrimEnd(rest) <= EVENT_CONTEXT_OPEN then Some(Cut) else None)
  }

  /** The part of `block_markers` after the owner marker. */
  function AfterOwner(text: string, rest: string): (m: Markers)
    requires |rest| <= |text|
    ensures m.Context? ==> m.at <= |text|
  {
    match RoutineMarker(rest, LAUNCH_MARKER, IsLaunch)
    case Absent => AfterMarkers(text, rest)
    case Unfinished => Within(text, Some(Cut))
    case Finished(launched) => AfterMarkers(text, TrimStart(launched))
  }

  function BlockMarkers(text: string): (m: Markers)
    ensures m.Context? ==> m.at <= |text|
  {
    match RoutineMarker(text, OWNER_MARKER, IsOwner)
    case Absent => Ended(None)
    case Unfinished => Within(text, Some(Cut))
    case Finished(owned) => AfterOwner(text, TrimStart(owned))
  }

  // ----- Whole markers, taken apart and put together

  /** An occurrence within a prefix is one in the text, and the other way
      round when it ends within the prefix. */
  lemma InPrefix(s: string, t: string, pattern: string, i: nat)
    requires i + |pattern| <= |s|
    ensures At(s + t, pattern, i) <==> At(s, pattern, i)
  {
    assert (s + t)[i..i + |pattern|] == s[i..i + |pattern|];
  }

  lemma AtContains(s: string, pattern: string, i: nat)
    requires At(s, pattern, i)
    ensures Contains(s, pattern)
  {
  }

  predicate IsValue(value: string, valid: string -> bool) {
    '\n' !in value && !Contains(value, MARKER_END) && valid(value)
  }

  lemma ReadParts(v: string, valid: string -> bool) returns (value: string)
    requires ReadValue(v, valid).Finished?
    ensures IsValue(value, valid)
    ensures v == value + MARKER_END + ReadValue(v, valid).rest
  {
    var i := Find(v, MARKER_END).value;
    value := v[..i];
    assert v == value + v[i..];
    forall j | 0 <= j <= |value| ensures !At(value, MARKER_END, j) {
      if At(value, MARKER_END, j) { InPrefix(value, v[i..], MARKER_END, j); }
    }
    assert v[i..] == MARKER_END + v[i + |MARKER_END|..];
  }

  /** A whole marker is its prefix, a one-line value that is accepted, the end
      of the marker and what follows. */
  lemma FinishedParts(text: string, prefix: string, valid: string -> bool) returns (value: string)
    requires RoutineMarker(text, prefix, valid).Finished?
    ensures IsValue(value, valid)
    ensures text == prefix + (value + MARKER_END + RoutineMarker(text, prefix, valid).rest)
  {
    hide IsValue, ReadValue;
    value := ReadParts(text[|prefix|..], valid);
  }

  /** The first end of a marker after a value without one is where it was
      put: the end of a marker cannot overlap itself. */
  lemma EndIsFound(value: string, rest: string)
    requires !Contains(value, MARKER_END)
    ensures Find(value + MARKER_END + rest, MARKER_END) == Some(|value|)
  {
    hide Contains, Unbordered;
    MarkerEnd();
    var text := value + MARKER_END + rest;
    assert text[|value|..|value| + |MARKER_END|] == MARKER_END;
    assert text == value + (MARKER_END + rest);
    forall j | 0 <= j < |value| ensures !At(text, MARKER_END, j) {
      if At(text, MARKER_END, j) {
        NoOverlap(text, MARKER_END, j, |value|);
        InPrefix(value, MARKER_END + rest, MARKER_END, j);
        AtContains(value, MARKER_END, j);
      }
    }
    FirstIsUnique(text, MARKER_END, |value|);
  }

  lemma ReadPrinted(value: string, rest: string, valid: string -> bool)
    requires IsValue(value, valid)
    ensures ReadValue(value + MARKER_END + rest, valid) == Finished(rest)
  {
    hide Contains;
    var v := value + MARKER_END + rest;
    EndIsFound(value, rest);
    assert v[..|value|] == value && v[|value| + |MARKER_END|..] == rest;
  }

  lemma MarkerOpened(prefix: string, v: string, valid: string -> bool)
    ensures RoutineMarker(prefix + v, prefix, valid) == ReadValue(v, valid)
  {
    hide ReadValue;
    BytesConcat(prefix, v);
    assert (prefix + v)[|prefix|..] == v;
  }

  lemma MarkerPrinted(prefix: string, value: string, rest: string, valid: string -> bool)
    requires IsValue(value, valid)
    ensures RoutineMarker(prefix + (value + MARKER_END + rest), prefix, valid) == Finished(rest)
  {
    hide IsValue, ReadValue, RoutineMarker;
    ReadPrinted(value, rest, valid);
    MarkerOpened(prefix, value + MARKER_END + rest, valid);
  }

  // ----- More text after what was read

  lemma FirstStays(v: string, more: string, i: nat)
    requires i + |MARKER_END| <= |v|
    ensures Find(v, MARKER_END) == Some(i) <==> Find(v + more, MARKER_END) == Some(i)
  {
    InPrefix(v, more, MARKER_END, i);
    forall j | 0 <= j < i ensures At(v + more, MARKER_END, j) <==> At(v, MARKER_END, j) {
      InPrefix(v, more, MARKER_END, j);
    }
  }

  lemma ReadStable(v: string, more: string, i: nat, valid: string -> bool)
    requires i + |MARKER_END| <= |v|
    requires Find(v + more, MARKER_END) == Some(i) || Find(v, MARKER_END) == Some(i)
    ensures ReadValue(v, valid).Finished? <==> ReadValue(v + more, valid).Finished?
    ensures ReadValue(v, valid).Absent? <==> ReadValue(v + more, valid).Absent?
    ensures ReadValue(v, valid).Finished? ==>
              ReadValue(v + more, valid).rest == ReadValue(v, valid).rest + more
  {
    hide At, Contains;
    FirstStays(v, more, i);
    assert (v + more)[..i] == v[..i];
    assert (v + more)[i + |MARKER_END|..] == v[i + |MARKER_END|..] + more;
  }

  lemma MarkerExtends(text: string, more: string, prefix: string, valid: string -> bool)
    requires RoutineMarker(text, prefix, valid).Finished?
    ensures RoutineMarker(text + more, prefix, valid) == Finished(RoutineMarker(text, prefix, valid).rest + more)
  {
    hide ReadValue;
    var v := text[|prefix|..];
    ReadEnds(v, valid);
    ReadStable(v, more, Find(v, MARKER_END).value, valid);
    assert text + more == prefix + (v + more);
    MarkerOpened(prefix, v + more, valid);
  }

  lemma ReadEnds(v: string, valid: string -> bool)
    requires ReadValue(v, valid).Finished?
    ensures Find(v, MARKER_END).Some?
    ensures Find(v, MARKER_END).value + |MARKER_END| + |ReadValue(v, valid).rest| == |v|
  {
  }

  /** What a longer text shows of a marker that ends in the part read. */
  lemma MarkerTruncates(text: string, more: string, prefix: string, valid: string -> bool)
    requires RoutineMarker(text + more, prefix, valid).Finished?
    requires |more| <= |RoutineMarker(text + more, prefix, valid).rest|
    ensures RoutineMarker(text, prefix, valid).Finished?
    ensures RoutineMarker(text + more, prefix, valid).rest == RoutineMarker(text, prefix, valid).rest + more
  {
    hide ReadValue;
    assert prefix == (text + more)[..|prefix|] == text[..|prefix|];
    var v := text[|prefix|..];
    assert (text + more)[|prefix|..] == v + more;
    ReadEnds(v + more, valid);
    ReadStable(v, more, Find(v + more, MARKER_END).value, valid);
    assert text == prefix + v;
    MarkerOpened(prefix, v, valid);
  }

  lemma ReadAbsentStays(v: string, more: string, valid: string -> bool)
    requires ReadValue(v, valid).Absent?
    ensures ReadValue(v + more, valid).Absent?
  {
    var found := Find(v, MARKER_END);
    if found.Some? {
      ReadStable(v, more, found.value, valid);
    } else {
      var p :| 0 <= p < |v| && v[p] == '\n';
      NewlineFirst(v, more, p);
      assert (v + more)[p] == '\n';
    }
  }

  /** Where no marker ended before a newline, none ends before it later. */
  lemma NewlineFirst(v: string, more: string, p: nat)
    requires Find(v, MARKER_END).None? && p < |v| && v[p] == '\n'
    ensures Find(v + more, MARKER_END).Some? ==> p < Find(v + more, MARKER_END).value
  {
    hide Contains, Unbordered;
    MarkerEnd();
    var found := Find(v + more, MARKER_END);
    if found.Some? {
      var i := found.value;
      assert (v + more)[p] == '\n';
      if i + |MARKER_END| <= p {
        InPrefix(v, more, MARKER_END, i);
        AtContains(v, MARKER_END, i);
      }
    }
  }

  /** Text that is no start of a marker never becomes one. */
  lemma AbsentStays(text: string, more: string, prefix: string, valid: string -> bool)
    requires IsTag(prefix) && text != ""
    requires RoutineMarker(text, prefix, valid).Absent?
    ensures RoutineMarker(text + more, prefix, valid).Absent?
  {
    hide ReadValue;
    TagFacts(prefix);
    AsciiBytes(prefix);
    BytesConcat(text, more);
    if prefix <= text {
      var v := text[|prefix|..];
      assert text == prefix + v && text + more == prefix + (v + more);
      MarkerOpened(prefix, v, valid);
      MarkerOpened(prefix, v + more, valid);
      ReadAbsentStays(v, more, valid);
    } else {
      if text <= prefix { ShortPrefix(text, prefix); }
      assert text + more <= prefix ==> text <= prefix;
      assert prefix <= text + more && |prefix| <= |text| ==> prefix <= text;
      assert prefix <= text + more && |text| < |prefix| ==> text <= prefix;
    }
  }

  lemma ShortPrefix(text: string, prefix: string)
    requires Ascii(prefix) && text <= prefix
    ensures Bytes(text) == |text|
  {
    assert text == prefix[..|text|];
    AsciiBytes(text);
  }

  /** When the context has opened by `at`. */
  lemma AfterMarkersOpens(text: string, rest: string, at: nat)
    requires |rest| <= |text|
    ensures AfterMarkers(text, rest) == Context(at) <==>
              && EVENT_CONTEXT_OPEN <= rest && at == |text| - |rest| + |EVENT_CONTEXT_OPEN|
              && Bytes(text[..at]) <= MARKERS_LIMIT
  {
    hide TrimEnd, Bytes;
    if EVENT_CONTEXT_OPEN <= rest { OpenIsText(rest); }
  }

  lemma OpenIsText(rest: string)
    requires EVENT_CONTEXT_OPEN <= rest
    ensures TrimEnd(rest) != ""
  {
    OpenTag();
    assert !IsWhite(EVENT_CONTEXT_OPEN[0]);
    AllWhiteTrims(rest);
  }

  lemma AfterMarkersStable(text: string, more: string, rest: string, at: nat)
    requires |rest| <= |text| && at <= |text|
    ensures AfterMarkers(text, rest) == Context(at) <==> AfterMarkers(text + more, rest + more) == Context(at)
  {
    hide AfterMarkers;
    AfterMarkersOpens(text, rest, at);
    AfterMarkersOpens(text + more, rest + more, at);
    assert (text + more)[..at] == text[..at];
    if |EVENT_CONTEXT_OPEN| <= |rest| { assert (rest + more)[..|EVENT_CONTEXT_OPEN|] == rest[..|EVENT_CONTEXT_OPEN|]; }
  }

  /** Text that opens the context is no launch marker, not even a cut one. */
  lemma OpenIsNoLaunch(rest: string)
    requires EVENT_CONTEXT_OPEN <= rest
    ensures RoutineMarker(rest, LAUNCH_MARKER, IsLaunch).Absent?
  {
    hide ReadValue;
    OpenTag();
    LaunchTag();
    TagFacts(LAUNCH_MARKER);
    AsciiBytes(LAUNCH_MARKER);
    assert rest[1] == EVENT_CONTEXT_OPEN[1] != LAUNCH_MARKER[1];
  }

  lemma AfterOwnerStable(text: string, more: string, rest: string, at: nat)
    requires |rest| <= |text| && at <= |text| && rest != ""
    ensures AfterOwner(text, rest) == Context(at) <==> AfterOwner(text + more, rest + more) == Context(at)
  {
    hide RoutineMarker, AfterMarkers;
    var now := RoutineMarker(rest, LAUNCH_MARKER, IsLaunch);
    var then' := RoutineMarker(rest + more, LAUNCH_MARKER, IsLaunch);
    LaunchTag();
    if now.Absent? {
      AbsentStays(rest, more, LAUNCH_MARKER, IsLaunch);
      AfterMarkersStable(text, more, rest, at);
    } else if now.Finished? {
      MarkerExtends(rest, more, LAUNCH_MARKER, IsLaunch);
      LaunchedStable(text, more, now.rest, at);
    } else if AfterOwner(text + more, rest + more) == Context(at) {
      if then'.Absent? {
        AfterMarkersOpens(text + more, rest + more, at);
        assert EVENT_CONTEXT_OPEN <= rest;
        OpenIsNoLaunch(rest);
      } else {
        AfterMarkersOpens(text + more, TrimStart(then'.rest), at);
        MarkerTruncates(rest, more, LAUNCH_MARKER, IsLaunch);
      }
    }
  }

  lemma LaunchedStable(text: string, more: string, launched: string, at: nat)
    requires |launched| <= |text| && at <= |text|
    ensures (AfterMarkers(text, TrimStart(launched)) == Context(at))
         == (AfterMarkers(text + more, TrimStart(launched + more)) == Context(at))
  {
    hide AfterMarkers;
    TrimStartMore(launched, more);
    if TrimStart(launched) != "" {
      AfterMarkersStable(text, more, TrimStart(launched), at);
    } else {
      AfterMarkersOpens(text, "", at);
      AfterMarkersOpens(text + more, TrimStart(more), at);
    }
  }

  /** Where the context starts is settled by the text up to there. */
  lemma ContextStable(text: string, more: string, at: nat)
    requires at <= |text|
    ensures BlockMarkers(text) == Context(at) <==> BlockMarkers(text + more) == Context(at)
  {
    hide RoutineMarker, AfterOwner;
    var now := RoutineMarker(text, OWNER_MARKER, IsOwner);
    if now.Finished? {
      MarkerExtends(text, more, OWNER_MARKER, IsOwner);
      OwnedStable(text, more, now.rest, at);
    } else if BlockMarkers(text + more) == Context(at) {
      var owned := RoutineMarker(text + more, OWNER_MARKER, IsOwner).rest;
      AfterOwnerOpens(text + more, TrimStart(owned), at);
      MarkerTruncates(text, more, OWNER_MARKER, IsOwner);
    }
  }

  /** The context opens within what follows the owner marker. */
  lemma AfterOwnerOpens(text: string, rest: string, at: nat)
    requires |rest| <= |text| && AfterOwner(text, rest) == Context(at)
    ensures |text| - |rest| < at <= |text| && Bytes(text[..at]) <= MARKERS_LIMIT
  {
    hide RoutineMarker, AfterMarkers;
    var m := RoutineMarker(rest, LAUNCH_MARKER, IsLaunch);
    AfterMarkersOpens(text, if m.Finished? then TrimStart(m.rest) else rest, at);
  }

  lemma OwnedStable(text: string, more: string, owned: string, at: nat)
    requires |owned| <= |text| && at <= |text|
    ensures (AfterOwner(text, TrimStart(owned)) == Context(at))
         == (AfterOwner(text + more, TrimStart(owned + more)) == Context(at))
  {
    hide AfterOwner;
    TrimStartMore(owned, more);
    if TrimStart(owned) != "" {
      AfterOwnerStable(text, more, TrimStart(owned), at);
    } else {
      if AfterOwner(text, "") == Context(at) { AfterOwnerOpens(text, "", at); }
      if AfterOwner(text + more, TrimStart(more)) == Context(at) { AfterOwnerOpens(text + more, TrimStart(more), at); }
    }
  }

  /** A context starts within the limit and inside the text. */
  lemma ContextWithin(text: string, at: nat)
    requires BlockMarkers(text) == Context(at)
    ensures at <= |text| && Bytes(text[..at]) <= MARKERS_LIMIT
  {
    hide RoutineMarker, AfterOwner;
    AfterOwnerOpens(text, TrimStart(RoutineMarker(text, OWNER_MARKER, IsOwner).rest), at);
  }

  /** Text that is neither the start of a block nor a whole one stays so
      whatever follows. */
  lemma DeadMarkersStay(text: string, more: string)
    requires text != "" && BlockMarkers(text) == Ended(None)
    ensures BlockMarkers(text + more) == Ended(None)
  {
    hide BlockMarkers;
    BytesConcat(text, more);
    if MARKERS_LIMIT < Bytes(text) {
      TooLong(text, more);
    } else {
      SyntaxStays(text, more);
    }
  }

  lemma TooLong(text: string, more: string)
    requires MARKERS_LIMIT < Bytes(text) && BlockMarkers(text) == Ended(None)
    ensures BlockMarkers(text + more) == Ended(None)
  {
    hide BlockMarkers;
    BytesConcat(text, more);
    match BlockMarkers(text + more)
    case Ended(end) => if end.Some? { EndedWithin(text + more); }
    case Context(at) =>
      ContextWithin(text + more, at);
      if at <= |text| {
        ContextStable(text, more, at);
      } else {
        assert (text + more)[..|text|] == text;
        PrefixBytes(text + more, |text|, at);
      }
  }

  lemma EndedWithin(text: string)
    requires BlockMarkers(text).Ended? && BlockMarkers(text).end.Some?
    ensures Bytes(text) <= MARKERS_LIMIT
  {
    hide RoutineMarker, TrimStart, TrimEnd, Bytes;
  }

  lemma SyntaxStays(text: string, more: string)
    requires text != "" && Bytes(text) <= MARKERS_LIMIT && BlockMarkers(text) == Ended(None)
    ensures BlockMarkers(text + more) == Ended(None)
  {
    hide RoutineMarker, AfterOwner;
    OwnerTag();
    var now := RoutineMarker(text, OWNER_MARKER, IsOwner);
    if now.Absent? {
      AbsentStays(text, more, OWNER_MARKER, IsOwner);
    } else {
      var rest := TrimStart(now.rest);
      MarkerExtends(text, more, OWNER_MARKER, IsOwner);
      TrimStartMore(now.rest, more);
      AfterOwnerDead(text, more, rest);
    }
  }

  lemma AfterOwnerDead(text: string, more: string, rest: string)
    requires |rest| <= |text| && Bytes(text) <= MARKERS_LIMIT && (rest != "" ==> !IsWhite(rest[0]))
    requires AfterOwner(text, rest) == Ended(None)
    ensures rest != "" && AfterOwner(text + more, rest + more) == Ended(None)
  {
    hide RoutineMarker, AfterMarkers;
    LaunchTag();
    var now := RoutineMarker(rest, LAUNCH_MARKER, IsLaunch);
    if now.Absent? {
      AfterMarkersDead(text, more, rest);
      AbsentStays(rest, more, LAUNCH_MARKER, IsLaunch);
    } else {
      MarkerExtends(rest, more, LAUNCH_MARKER, IsLaunch);
      AfterMarkersDead(text, more, TrimStart(now.rest));
      TrimStartMore(now.rest, more);
    }
  }

  lemma AfterMarkersDead(text: string, more: string, rest: string)
    requires |rest| <= |text| && Bytes(text) <= MARKERS_LIMIT && (rest != "" ==> !IsWhite(rest[0]))
    requires AfterMarkers(text, rest) == Ended(None)
    ensures rest != "" && AfterMarkers(text + more, rest + more) == Ended(None)
  {
    hide TrimEnd, Bytes;
    if TrimEnd(rest) != "" {
      if EVENT_CONTEXT_OPEN <= rest {
        ContextTooLate(text, |text| - (|rest| - |EVENT_CONTEXT_OPEN|));
      } else {
        NoOpenStart(rest, more);
      }
    }
  }

  lemma ContextTooLate(text: string, at: nat)
    requires at <= |text| && Bytes(text) <= MARKERS_LIMIT
    ensures Bytes(text[..at]) <= MARKERS_LIMIT
  {
    BytesSplit(text, at);
  }

  /** Text that neither opens the context nor is the start of its opening
      tag, white space after it aside, does not become so. */
  lemma NoOpenStart(rest: string, more: string)
    requires !(TrimEnd(rest) <= EVENT_CONTEXT_OPEN) && !(EVENT_CONTEXT_OPEN <= rest)
    ensures TrimEnd(rest + more) != ""
    ensures !(TrimEnd(rest + more) <= EVENT_CONTEXT_OPEN) && !(EVENT_CONTEXT_OPEN <= rest + more)
  {
    hide TrimEnd;
    TrimEndMore(rest, more);
    var open, kept, all := EVENT_CONTEXT_OPEN, TrimEnd(rest), TrimEnd(rest + more);
    if all <= open && rest <= all { PrefixChain(kept, rest, all); PrefixChain(kept, all, open); }
    if open <= rest + more {
      assert rest <= rest + more;
      PrefixChain(kept, rest, rest + more);
      PrefixesCompare(kept, open, rest + more);
      PrefixesCompare(rest, open, rest + more);
    }
  }

  lemma PrefixChain(a: string, b: string, c: string)
    requires a <= b && b <= c
    ensures a <= c
  {
  }

  lemma PrefixesCompare(a: string, b: string, c: string)
    requires a <= c && b <= c
    ensures |a| <= |b| ==> a <= b
    ensures |b| <= |a| ==> b <= a
  {
  }
}
