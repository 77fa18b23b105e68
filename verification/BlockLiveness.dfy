/** When a scan that is still live may yet see a whole block: the condition on
    the text read, as what its unfinished part lacks and the room left for it. */
module BlockLiveness {
  import opened Text
  import opened RoutineBlock
  import opened ContextScan
  import opened BlockScan
  import opened RoutinePrompt
  import opened RoutineRoundTrip

  // ----- What a marker lacks

  /** Bytes an owner value lacks at least: a kind, a colon and one more; a value
      that starts with the colon never has a kind. */
  function OwnerLacks(v: string): Option<nat> {
    if v == "" then Some(3)
    else
      match Find(v, ":")
      case None => Some(2)
      case Some(i) => if i == 0 then None else if i + 1 < |v| then Some(0) else Some(1)
  }

  function LaunchLacks(v: string): Option<nat> {
    Some(if v == "" then 1 else 0)
  }

  /** How much of the end of a marker a text ends with. */
  function Begun(v: string): (k: nat)
    ensures k <= |v| && k < 4
  {
    var n := |v|;
    if 3 <= n && v[n - 3] == ' ' && v[n - 2] == '-' && v[n - 1] == '-' then 3
    else if 2 <= n && v[n - 2] == ' ' && v[n - 1] == '-' then 2
    else if 1 <= n && v[n - 1] == ' ' then 1
    else 0
  }

  /** Bytes a marker lacks whose value so far is `v`: the rest of its end if one
      began after a value that is accepted, else of its value, and its end. */
  function EndLacks(v: string, lacks: string -> Option<nat>): Option<nat> {
    var k := Begun(v);
    if k > 0 && lacks(v[..|v| - k]) == Some(0) then Some(4 - k)
    else
      match lacks(v)
      case Some(n) => Some(n + 4)
      case None => None
  }

  /** Bytes the opening tag lacks; white space within it is no part of it. */
  function OpenLacks(rest: string): Option<nat> {
    if rest <= EVENT_CONTEXT_OPEN then Some(|EVENT_CONTEXT_OPEN| - |rest|) else None
  }

  /** Bytes what follows the owner marker lacks. `<` may start either tag, and
      the shorter is the opening tag. */
  function RestLacks(rest: string): Option<nat> {
    match RoutineMarker(rest, LAUNCH_MARKER, IsLaunch)
    case Unfinished =>
      if rest == "<" then Some(20)
      else if |rest| < |LAUNCH_MARKER| then Some(|LAUNCH_MARKER| - |rest| + 5)
      else EndLacks(rest[|LAUNCH_MARKER|..], LaunchLacks)
    case Absent => OpenLacks(rest)
    case Finished(launched) => OpenLacks(TrimStart(launched))
  }

  function Lacks(text: string): Option<nat> {
    if |text| < |OWNER_MARKER| then Some(|OWNER_MARKER| - |text| + 7)
    else
      match RoutineMarker(text, OWNER_MARKER, IsOwner)
      case Unfinished => EndLacks(text[|OWNER_MARKER|..], OwnerLacks)
      case Absent => None
      case Finished(owned) => RestLacks(TrimStart(owned))
  }

  /** A context that opened, a whole block, or a start of one that what it lacks
      does not take past the limit. */
  predicate Completable(text: string) {
    match BlockMarkers(text)
    case Context(_) => true
    case Ended(None) => false
    case Ended(Some(end)) => end == Whole || (Lacks(text).Some? && Bytes(text) + Lacks(text).value <= MARKERS_LIMIT)
  }

  // ----- Values

  /** Characters that neither end a marker nor a line. */
  predicate Fills(w: string, n: nat) {
    |w| == n && forall i :: 0 <= i < |w| ==> w[i] as int < 0x80 && w[i] != '>' && w[i] != '\n'
  }

  /** `lacks` tells the least a value needs to be accepted. */
  ghost predicate Tells(valid: string -> bool, lacks: string -> Option<nat>) {
    && (forall v: string, w: string :: valid(v + w) ==> lacks(v).Some? && lacks(v).value <= |w|)
    && (forall v: string :: lacks(v).Some? ==> exists w :: Fills(w, lacks(v).value) && valid(v + w))
  }

  lemma LaunchTells()
    ensures Tells(IsLaunch, LaunchLacks)
  {
    forall v: string | LaunchLacks(v).Some? ensures exists w :: Fills(w, LaunchLacks(v).value) && IsLaunch(v + w) {
      var w := if v == "" then "i" else "";
      assert Fills(w, LaunchLacks(v).value) && IsLaunch(v + w);
    }
  }

  lemma FindChar(v: string, i: nat)
    requires Find(v, ":") == Some(i)
    ensures i < |v| && v[i] == ':' && forall j :: 0 <= j < i ==> v[j] != ':'
  {
    forall j | 0 <= j < i ensures v[j] != ':' {
      assert !At(v, ":", j) && v[j..j + 1] == [v[j]];
    }
  }

  lemma CharFound(v: string, i: nat)
    requires i < |v| && v[i] == ':' && forall j :: 0 <= j < i ==> v[j] != ':'
    ensures Find(v, ":") == Some(i)
  {
    assert v[i..i + 1] == ":";
    forall j | 0 <= j < i ensures !At(v, ":", j) {
      assert v[j] != ':';
    }
    FirstIsUnique(v, ":", i);
  }

  lemma NoChar(v: string, i: nat)
    requires Find(v, ":").None? && i < |v|
    ensures v[i] != ':'
  {
    assert !At(v, ":", i);
  }

  lemma OwnerNeeds(v: string, w: string)
    requires IsOwner(v + w)
    ensures OwnerLacks(v).Some? && OwnerLacks(v).value <= |w|
  {
    hide Find, At;
    var i := Find(v + w, ":").value;
    FindChar(v + w, i);
    if v != "" {
      match Find(v, ":")
      case None => forall j | 0 <= j < |v| ensures v[j] != ':' { NoChar(v, j); }
      case Some(k) =>
        FindChar(v, k);
        assert (v + w)[k] == v[k];
    }
  }

  lemma OwnerFills(v: string) returns (w: string)
    requires OwnerLacks(v).Some?
    ensures Fills(w, OwnerLacks(v).value) && IsOwner(v + w)
  {
    hide Find, At;
    if v == "" {
      w := "a:b";
      CharFound(v + w, 1);
    } else {
      match Find(v, ":")
      case None =>
        w := ":b";
        forall j | 0 <= j < |v| ensures (v + w)[j] != ':' { NoChar(v, j); }
        CharFound(v + w, |v|);
      case Some(k) =>
        w := if k + 1 < |v| then "" else "b";
        FindChar(v, k);
        CharFound(v + w, k);
    }
  }

  lemma OwnerTells()
    ensures Tells(IsOwner, OwnerLacks)
  {
    hide IsOwner, OwnerLacks;
    forall v: string, w: string | IsOwner(v + w) ensures OwnerLacks(v).Some? && OwnerLacks(v).value <= |w| {
      OwnerNeeds(v, w);
    }
    forall v: string | OwnerLacks(v).Some? ensures exists w :: Fills(w, OwnerLacks(v).value) && IsOwner(v + w) {
      var w := OwnerFills(v);
    }
  }

  // ----- The end of a marker

  lemma MarkerEndIs()
    ensures |MARKER_END| == 4
    ensures MARKER_END[0] == ' ' && MARKER_END[1] == '-' && MARKER_END[2] == '-' && MARKER_END[3] == '>'
  {
  }

  lemma BegunIs(v: string, k: nat)
    requires 0 < k < 4 && k <= |v| && v[|v| - k..] == MARKER_END[..k]
    ensures Begun(v) == k
  {
    hide MARKER_END;
    MarkerEndIs();
    forall j | 0 <= j < k ensures v[|v| - k + j] == MARKER_END[j] {
      assert v[|v| - k..][j] == MARKER_END[..k][j];
    }
    assert v[|v| - k] == MARKER_END[0];
    if k > 1 { assert v[|v| - k + 1] == MARKER_END[1]; }
    if k > 2 { assert v[|v| - k + 2] == MARKER_END[2]; }
  }

  lemma BegunEnds(v: string)
    ensures v[|v| - Begun(v)..] == MARKER_END[..Begun(v)]
  {
    hide MARKER_END;
    MarkerEndIs();
    assert v[|v|..] == MARKER_END[..0];
  }

  /** A marker that ends later takes at least what it lacks. */
  lemma MarkerNeeds(v: string, more: string, valid: string -> bool, lacks: string -> Option<nat>)
    requires Tells(valid, lacks) && ReadValue(v, valid).Unfinished? && ReadValue(v + more, valid).Finished?
    ensures var rest := ReadValue(v + more, valid).rest;
            EndLacks(v, lacks).Some? && |v| + EndLacks(v, lacks).value + |rest| <= |v + more|
  {
    hide Begun, Tells;
    var i := Find(v + more, MARKER_END).value;
    MarkerEnd();
    ReadEnds(v + more, valid);
    if i + 4 <= |v| {
      InPrefix(v, more, MARKER_END, i);
      AtContains(v, MARKER_END, i);
    }
    if i < |v| {
      EndStraddles(v, more, i);
      BegunIs(v, |v| - i);
      assert (v + more)[..i] == v[..i] == v[..i] + "";
      TellsNeed(v[..i], "", valid, lacks);
    } else {
      assert (v + more)[..i] == v + more[..i - |v|];
      TellsNeed(v, more[..i - |v|], valid, lacks);
    }
  }

  lemma EndStraddles(v: string, more: string, i: nat)
    requires i < |v| < i + 4 && At(v + more, MARKER_END, i)
    ensures v[i..] == MARKER_END[..|v| - i]
  {
    var all := v + more;
    forall j | i <= j < |v| ensures v[j] == MARKER_END[j - i] {
      assert all[j] == all[i..i + 4][j - i];
    }
  }

  lemma TellsNeed(v: string, w: string, valid: string -> bool, lacks: string -> Option<nat>)
    requires Tells(valid, lacks) && valid(v + w)
    ensures lacks(v).Some? && lacks(v).value <= |w|
  {
  }

  lemma TellsFill(v: string, valid: string -> bool, lacks: string -> Option<nat>) returns (w: string)
    requires Tells(valid, lacks) && lacks(v).Some?
    ensures Fills(w, lacks(v).value) && valid(v + w)
  {
    w :| Fills(w, lacks(v).value) && valid(v + w);
  }

  lemma UnfinishedIsLine(v: string, valid: string -> bool)
    requires ReadValue(v, valid).Unfinished?
    ensures '\n' !in v && !Contains(v, MARKER_END)
  {
  }

  lemma NotInPrefix(v: string, k: nat)
    requires !Contains(v, MARKER_END) && k <= |v|
    ensures !Contains(v[..k], MARKER_END)
  {
    hide Contains;
    ContainsInPrefix(v, k);
  }

  lemma ContainsInPrefix(v: string, k: nat)
    requires k <= |v|
    ensures Contains(v[..k], MARKER_END) ==> Contains(v, MARKER_END)
  {
    if Contains(v[..k], MARKER_END) {
      var i :| 0 <= i <= k && At(v[..k], MARKER_END, i);
      assert v == v[..k] + v[k..];
      InPrefix(v[..k], v[k..], MARKER_END, i);
    }
  }

  lemma NotInFilled(v: string, w: string, n: nat)
    requires !Contains(v, MARKER_END) && Fills(w, n)
    ensures !Contains(v + w, MARKER_END)
  {
    MarkerEnd();
    if Contains(v + w, MARKER_END) {
      var i :| 0 <= i <= |v + w| && At(v + w, MARKER_END, i);
      assert (v + w)[i..i + 4][3] == '>' && (v + w)[i + 3] == '>';
      if i + 4 <= |v| {
        InPrefix(v, w, MARKER_END, i);
        AtContains(v, MARKER_END, i);
      }
    }
  }

  /** And can end with just that. */
  lemma MarkerEnds(v: string, valid: string -> bool, lacks: string -> Option<nat>) returns (more: string)
    requires Tells(valid, lacks) && ReadValue(v, valid).Unfinished? && EndLacks(v, lacks).Some?
    ensures Ascii(more) && |more| == EndLacks(v, lacks).value && ReadValue(v + more, valid) == Finished("")
  {
    hide Begun, Tells, ReadValue, Contains;
    MarkerEnd();
    UnfinishedIsLine(v, valid);
    var k := Begun(v);
    if k > 0 && lacks(v[..|v| - k]) == Some(0) {
      var u := v[..|v| - k];
      var w := TellsFill(u, valid, lacks);
      assert u + w == u;
      NotInPrefix(v, |v| - k);
      more := MARKER_END[k..];
      BegunEnds(v);
      ReadPrinted(u, "", valid);
      assert v + more == u + MARKER_END + "";
    } else {
      var w := TellsFill(v, valid, lacks);
      NotInFilled(v, w, |w|);
      more := w + MARKER_END;
      ReadPrinted(v + w, "", valid);
      assert v + more == (v + w) + MARKER_END + "";
    }
  }

  // ----- Texts that complete a block

  /** `rest` is what follows the owner marker of `text`. */
  ghost predicate Owned(text: string, rest: string) {
    && RoutineMarker(text, OWNER_MARKER, IsOwner).Finished?
    && rest == TrimStart(RoutineMarker(text, OWNER_MARKER, IsOwner).rest)
  }

  lemma OwnedMore(text: string, rest: string, more: string)
    requires Owned(text, rest) && rest != ""
    ensures Owned(text + more, rest + more) && IsSuffix(rest, text)
  {
    hide RoutineMarker, TrimStart, IsSuffix;
    MarkerExtends(text, more, OWNER_MARKER, IsOwner);
    TrimStartMore(RoutineMarker(text, OWNER_MARKER, IsOwner).rest, more);
    MarkerSuffix(text, OWNER_MARKER, IsOwner);
  }

  lemma AbsentMarkers(text: string, rest: string)
    requires Owned(text, rest) && RoutineMarker(rest, LAUNCH_MARKER, IsLaunch).Absent?
    ensures |rest| <= |text| && BlockMarkers(text) == AfterMarkers(text, rest)
  {
    hide RoutineMarker, AfterMarkers;
  }

  lemma LaunchedMarkers(text: string, rest: string)
    requires Owned(text, rest) && RoutineMarker(rest, LAUNCH_MARKER, IsLaunch).Finished?
    ensures var left := TrimStart(RoutineMarker(rest, LAUNCH_MARKER, IsLaunch).rest);
            |left| <= |text| && BlockMarkers(text) == AfterMarkers(text, left)
  {
    hide RoutineMarker, AfterMarkers;
  }

  lemma NothingFollows(text: string)
    requires RoutineMarker(text, OWNER_MARKER, IsOwner) == Finished("") && Bytes(text) <= MARKERS_LIMIT
    ensures BlockEnd(text) == Some(Whole)
  {
    hide RoutineMarker, Bytes;
    NothingIsAbsent();
    assert TrimStart("") == "" && TrimEnd("") == "";
  }

  lemma LaunchEnds(text: string, rest: string)
    requires Owned(text, rest) && RoutineMarker(rest, LAUNCH_MARKER, IsLaunch) == Finished("") && Bytes(text) <= MARKERS_LIMIT
    ensures BlockEnd(text) == Some(Whole)
  {
    hide RoutineMarker, Bytes;
    assert TrimStart("") == "" && TrimEnd("") == "";
  }

  lemma EmptyContext()
    ensures ContextEnd(Pushed(FRESH, EVENT_CONTEXT_CLOSE)) == Some(Whole)
  {
    hide Pushed, Contains;
    PrintedContext("");
    assert "" + EVENT_CONTEXT_CLOSE == EVENT_CONTEXT_CLOSE;
    NotInNothing(EVENT_CONTEXT_OPEN);
    NotInNothing(EVENT_CONTEXT_CLOSE);
  }

  lemma NotInNothing(tag: string)
    requires tag != ""
    ensures !Contains("", tag)
  {
  }

  /** `text` opens a context and closes it at once. */
  ghost predicate ClosesAtOnce(text: string, markers: Markers) {
    markers.Context? && markers.at <= |text| && text[markers.at..] == EVENT_CONTEXT_CLOSE
  }

  lemma ContextCloses(text: string)
    requires ClosesAtOnce(text, BlockMarkers(text))
    ensures BlockEnd(text) == Some(Whole)
  {
    hide BlockMarkers, Pushed, EVENT_CONTEXT_CLOSE;
    EmptyContext();
  }

  lemma SuffixMore(rest: string, text: string, more: string)
    requires IsSuffix(rest, text)
    ensures IsSuffix(rest + more, text + more)
  {
    assert (text + more)[|text| - |rest|..] == text[|text| - |rest|..] + more;
  }

  lemma OpenCloses(text: string, rest: string)
    requires IsSuffix(rest, text) && rest == EVENT_CONTEXT_OPEN + EVENT_CONTEXT_CLOSE
    requires Bytes(text[..|text| - 22]) <= MARKERS_LIMIT
    ensures ClosesAtOnce(text, AfterMarkers(text, rest))
  {
    hide EVENT_CONTEXT_OPEN, EVENT_CONTEXT_CLOSE, AfterMarkers, Bytes;
    OpenTag();
    CloseTag();
    var at := |text| - 22;
    AfterMarkersOpens(text, rest, at);
    assert text[at..] == text[|text| - |rest|..][21..];
  }

  /** The rest of the opening tag, and the closing tag. */
  lemma OpenCompletes(text: string, rest: string) returns (more: string)
    requires IsSuffix(rest, text) && OpenLacks(rest).Some? && Bytes(text) + OpenLacks(rest).value <= MARKERS_LIMIT
    ensures rest + more == EVENT_CONTEXT_OPEN + EVENT_CONTEXT_CLOSE
    ensures |rest + more| <= |text + more| && ClosesAtOnce(text + more, AfterMarkers(text + more, rest + more))
  {
    hide EVENT_CONTEXT_OPEN, EVENT_CONTEXT_CLOSE, Bytes, IsTag, AfterMarkers, MARKERS_LIMIT, ClosesAtOnce;
    OpenTag();
    CloseTag();
    TagFacts(EVENT_CONTEXT_OPEN);
    var ending := EVENT_CONTEXT_OPEN[|rest|..];
    AsciiBytes(ending);
    BytesConcat(text, ending);
    more := ending + EVENT_CONTEXT_CLOSE;
    assert rest + ending == EVENT_CONTEXT_OPEN;
    assert rest + more == EVENT_CONTEXT_OPEN + EVENT_CONTEXT_CLOSE;
    assert (text + more)[..|text + more| - 22] == text + ending;
    SuffixMore(rest, text, more);
    OpenCloses(text + more, rest + more);
  }

  // ----- Enough room is enough

  lemma ShortOwner(text: string)
    requires text != "" && |text| < |OWNER_MARKER| && BlockMarkers(text) != Ended(None)
    ensures text <= OWNER_MARKER
  {
    hide ReadValue;
    OwnerTag();
    TagFacts(OWNER_MARKER);
    AsciiBytes(OWNER_MARKER);
  }

  lemma SmallOwner()
    ensures IsValue("a:b", IsOwner)
  {
    hide MARKER_END;
    MarkerEnd();
    CharFound("a:b", 1);
  }

  lemma SmallBlock()
    ensures BlockEnd(OWNER_MARKER + ("a:b" + MARKER_END + "")) == Some(Whole)
  {
    hide RoutineMarker, IsValue;
    SmallOwner();
    var text := OWNER_MARKER + ("a:b" + MARKER_END + "");
    MarkerPrinted(OWNER_MARKER, "a:b", "", IsOwner);
    assert Ascii(text) && |text| == 24;
    AsciiBytes(text);
    NothingFollows(text);
  }

  lemma ShortCompletes(text: string) returns (more: string)
    requires text <= OWNER_MARKER
    ensures BlockEnd(text + more) == Some(Whole)
  {
    hide BlockEnd, OWNER_MARKER, MARKER_END;
    more := OWNER_MARKER[|text|..] + ("a:b" + MARKER_END + "");
    assert text + more == OWNER_MARKER + ("a:b" + MARKER_END + "");
    SmallBlock();
  }

  /** A marker that lacks its end, and the text with it. */
  lemma PrefixEnds(text: string, prefix: string, valid: string -> bool, lacks: string -> Option<nat>) returns (more: string)
    requires Tells(valid, lacks) && IsTag(prefix) && |prefix| <= |text| && RoutineMarker(text, prefix, valid).Unfinished?
    requires EndLacks(text[|prefix|..], lacks).Some?
    ensures Ascii(more) && |more| == EndLacks(text[|prefix|..], lacks).value
    ensures RoutineMarker(text + more, prefix, valid) == Finished("")
  {
    hide Tells, ReadValue, EndLacks, IsTag;
    var v := text[|prefix|..];
    UnfinishedParts(text, prefix, valid);
    more := MarkerEnds(v, valid, lacks);
    assert text + more == prefix + (v + more);
    MarkerOpened(prefix, v + more, valid);
  }

  lemma UnfinishedParts(text: string, prefix: string, valid: string -> bool)
    requires IsTag(prefix) && |prefix| <= |text| && RoutineMarker(text, prefix, valid).Unfinished?
    ensures text == prefix + text[|prefix|..] && ReadValue(text[|prefix|..], valid).Unfinished?
  {
    hide ReadValue;
    TagFacts(prefix);
    AsciiBytes(prefix);
    if text <= prefix { assert text == prefix; }
  }

  lemma OwnerCompletes(text: string) returns (more: string)
    requires |OWNER_MARKER| <= |text| && RoutineMarker(text, OWNER_MARKER, IsOwner).Unfinished?
    requires Lacks(text).Some? && Bytes(text) + Lacks(text).value <= MARKERS_LIMIT
    ensures BlockEnd(text + more) == Some(Whole)
  {
    hide RoutineMarker, EndLacks, OwnerLacks, Bytes, BlockEnd, IsOwner, Tells, OWNER_MARKER, MARKERS_LIMIT;
    OwnerTag();
    OwnerTells();
    more := PrefixEnds(text, OWNER_MARKER, IsOwner, OwnerLacks);
    AsciiBytes(more);
    BytesConcat(text, more);
    NothingFollows(text + more);
  }

  lemma AngleOpens()
    ensures OpenLacks("<") == Some(20)
  {
  }

  lemma OpenIsAbsent(rest: string)
    requires rest == EVENT_CONTEXT_OPEN + EVENT_CONTEXT_CLOSE
    ensures RoutineMarker(rest, LAUNCH_MARKER, IsLaunch).Absent?
  {
    hide RoutineMarker, EVENT_CONTEXT_OPEN, EVENT_CONTEXT_CLOSE;
    OpenIsNoLaunch(rest);
  }

  /** The opening tag begun after the owner marker. */
  lemma OpenFollows(text: string, rest: string) returns (more: string)
    requires Owned(text, rest) && rest != "" && OpenLacks(rest).Some? && Bytes(text) + OpenLacks(rest).value <= MARKERS_LIMIT
    ensures BlockEnd(text + more) == Some(Whole)
  {
    hide *;
    OwnedMore(text, rest, "");
    more := OpenCompletes(text, rest);
    OwnedMore(text, rest, more);
    OpenIsAbsent(rest + more);
    AbsentMarkers(text + more, rest + more);
    ContextCloses(text + more);
  }

  /** The opening tag begun after the launch marker. */
  lemma OpenFollowsLaunch(text: string, rest: string) returns (more: string)
    requires Owned(text, rest) && RoutineMarker(rest, LAUNCH_MARKER, IsLaunch).Finished?
    requires var left := TrimStart(RoutineMarker(rest, LAUNCH_MARKER, IsLaunch).rest);
             left != "" && OpenLacks(left).Some? && Bytes(text) + OpenLacks(left).value <= MARKERS_LIMIT
    ensures BlockEnd(text + more) == Some(Whole)
  {
    hide *;
    var launched := RoutineMarker(rest, LAUNCH_MARKER, IsLaunch).rest;
    FinishedIsText(rest);
    OwnedMore(text, rest, "");
    MarkerSuffix(rest, LAUNCH_MARKER, IsLaunch);
    SuffixOfSuffix(TrimStart(launched), rest, text);
    more := OpenCompletes(text, TrimStart(launched));
    OwnedMore(text, rest, more);
    MarkerExtends(rest, more, LAUNCH_MARKER, IsLaunch);
    TrimStartMore(launched, more);
    LaunchedMarkers(text + more, rest + more);
    ContextCloses(text + more);
  }

  lemma FinishedIsText(rest: string)
    requires RoutineMarker(rest, LAUNCH_MARKER, IsLaunch).Finished?
    ensures rest != ""
  {
    hide RoutineMarker;
    NothingIsAbsent();
  }

  lemma LaunchFits(id: string)
    requires id == "i"
    ensures IsValue(id, IsLaunch)
  {
  }

  lemma UnfinishedLaunch(rest: string)
    requires RoutineMarker(rest, LAUNCH_MARKER, IsLaunch).Unfinished? && |rest| < |LAUNCH_MARKER|
    ensures rest <= LAUNCH_MARKER
  {
    hide ReadValue;
    LaunchTag();
    TagFacts(LAUNCH_MARKER);
    AsciiBytes(LAUNCH_MARKER);
  }

  /** The rest of a launch marker. */
  lemma LaunchCompletes(rest: string) returns (more: string)
    requires RoutineMarker(rest, LAUNCH_MARKER, IsLaunch).Unfinished? && rest != "<"
    ensures RestLacks(rest) == Some(|more|) && Ascii(more)
    ensures RoutineMarker(rest + more, LAUNCH_MARKER, IsLaunch) == Finished("")
  {
    hide RoutineMarker, EndLacks, LaunchLacks, IsLaunch, Tells, LAUNCH_MARKER, MARKER_END, Ascii;
    LaunchTag();
    MarkerEnd();
    if |rest| < |LAUNCH_MARKER| {
      UnfinishedLaunch(rest);
      LaunchFits("i");
      more := LAUNCH_MARKER[|rest|..] + ("i" + MARKER_END + "");
      AsciiEnding(rest, more);
      MarkerPrinted(LAUNCH_MARKER, "i", "", IsLaunch);
      assert rest + more == LAUNCH_MARKER + ("i" + MARKER_END + "");
    } else {
      LaunchTells();
      LaunchEndLacks(rest[|LAUNCH_MARKER|..]);
      more := PrefixEnds(rest, LAUNCH_MARKER, IsLaunch, LaunchLacks);
    }
  }

  lemma AsciiEnding(rest: string, more: string)
    requires |rest| <= |LAUNCH_MARKER| && more == LAUNCH_MARKER[|rest|..] + ("i" + MARKER_END + "")
    ensures Ascii(more)
  {
    hide LAUNCH_MARKER, MARKER_END;
    LaunchTag();
    TagFacts(LAUNCH_MARKER);
    MarkerEnd();
  }

  lemma LaunchEndLacks(v: string)
    ensures EndLacks(v, LaunchLacks).Some?
  {
  }

  /** What may follow the owner marker and completes the block. */
  lemma RestCompletes(text: string, rest: string) returns (more: string)
    requires Owned(text, rest) && rest != "" && RestLacks(rest).Some? && Bytes(text) + RestLacks(rest).value <= MARKERS_LIMIT
    requires RoutineMarker(rest, LAUNCH_MARKER, IsLaunch).Finished? ==>
               TrimStart(RoutineMarker(rest, LAUNCH_MARKER, IsLaunch).rest) != ""
    ensures BlockEnd(text + more) == Some(Whole)
  {
    hide Owned, RoutineMarker, OpenLacks, EndLacks, Bytes, BlockEnd, IsLaunch, TrimStart, LAUNCH_MARKER, MARKERS_LIMIT, Ascii;
    match RoutineMarker(rest, LAUNCH_MARKER, IsLaunch)
    case Unfinished =>
      if rest == "<" {
        AngleOpens();
        more := OpenFollows(text, rest);
      } else {
        more := LaunchCompletes(rest);
        AsciiBytes(more);
        BytesConcat(text, more);
        OwnedMore(text, rest, more);
        LaunchEnds(text + more, rest + more);
      }
    case Absent => more := OpenFollows(text, rest);
    case Finished(_) => more := OpenFollowsLaunch(text, rest);
  }

  /** A context that is alive is whole, or becomes so with its closing tag. */
  lemma ContextCompletes(s: Scan, text: string) returns (more: string)
    requires HasRead(s, text) && s.context.Some? && Alive(s.context.value)
    ensures BlockEnd(text + more) == Some(Whole)
  {
    hide Pushed, Count, Contains, Carries, BlockMarkers, IsTag, TextAfter, EVENT_CONTEXT_CLOSE, EVENT_CONTEXT_OPEN, Bytes;
    var at, rest := |s.markers|, text[|s.markers|..];
    if s.context.value.closes == 0 {
      OpenTag();
      CloseTag();
      CountContains(rest, EVENT_CONTEXT_OPEN);
      CountContains(rest, EVENT_CONTEXT_CLOSE);
      PrintedContext(rest);
      more := EVENT_CONTEXT_CLOSE;
      ContextStable(text, more, at);
      assert (text + more)[at..] == rest + more;
    } else {
      more := "";
      ScanIsExact(s, text);
      assert text + more == text;
    }
  }

  lemma CutParts(text: string)
    requires BlockMarkers(text) == Ended(Some(Cut)) && |OWNER_MARKER| <= |text|
    ensures var m := RoutineMarker(text, OWNER_MARKER, IsOwner);
            && !m.Absent?
            && (m.Finished? ==>
                  var rest := TrimStart(m.rest);
                  && Owned(text, rest) && rest != "" && !IsWhite(rest[0])
                  && match RoutineMarker(rest, LAUNCH_MARKER, IsLaunch)
                     case Unfinished => true
                     case Absent => !(EVENT_CONTEXT_OPEN <= rest)
                     case Finished(launched) => TrimStart(launched) != "" && !(EVENT_CONTEXT_OPEN <= TrimStart(launched)))
  {
    hide RoutineMarker, Bytes, EVENT_CONTEXT_OPEN, MARKERS_LIMIT;
    NothingIsAbsent();
    assert TrimEnd("") == "";
  }

  lemma LiveCompletes(s: Scan, text: string) returns (more: string)
    requires HasRead(s, text) && text != "" && IsAlive(s) && Completable(text)
    ensures BlockEnd(text + more) == Some(Whole)
  {
    hide RoutineMarker, BlockMarkers, Bytes, Summarises, Alive, Owned, RestLacks, EndLacks, OWNER_MARKER, MARKERS_LIMIT;
    if s.context.Some? {
      more := ContextCompletes(s, text);
    } else if BlockMarkers(text) == Ended(Some(Whole)) {
      more := "";
      assert text + more == text;
    } else if |text| < |OWNER_MARKER| {
      ShortOwner(text);
      more := ShortCompletes(text);
    } else {
      CutParts(text);
      match RoutineMarker(text, OWNER_MARKER, IsOwner)
      case Unfinished => more := OwnerCompletes(text);
      case Finished(owned) => more := RestCompletes(text, TrimStart(owned));
    }
  }

  // ----- And it is needed

  lemma GrowsWithin(text: string, more: string, n: nat, e: nat)
    requires |text| + n <= e <= |text + more| && Bytes((text + more)[..e]) <= MARKERS_LIMIT
    ensures Bytes(text) + n <= MARKERS_LIMIT
  {
    PrefixBytes(text + more, |text|, e);
    assert (text + more)[..|text|] == text;
  }

  /** What of a whole block is within the limit: all before what follows the
      markers, and the opening tag if anything follows. */
  lemma MarkersWithin(text: string, rest: string)
    requires |rest| <= |text| && (AfterMarkers(text, rest).Context? || AfterMarkers(text, rest) == Ended(Some(Whole)))
    ensures Bytes(text[..|text| - |rest|]) <= MARKERS_LIMIT
    ensures rest != "" && !IsWhite(rest[0]) ==>
              EVENT_CONTEXT_OPEN <= rest && Bytes(text[..|text| - |rest| + 21]) <= MARKERS_LIMIT
  {
    hide TrimEnd, Bytes, EVENT_CONTEXT_OPEN, MARKERS_LIMIT;
    OpenTag();
    assert text[..|text|] == text;
    PrefixBytes(text, |text| - |rest|, |text|);
    if EVENT_CONTEXT_OPEN <= rest { PrefixBytes(text, |text| - |rest|, |text| - |rest| + 21); }
    if rest != "" && !IsWhite(rest[0]) { FirstIsText(rest); }
  }

  lemma WholeMarkers(text: string)
    requires BlockEnd(text) == Some(Whole)
    ensures BlockMarkers(text).Context? || BlockMarkers(text) == Ended(Some(Whole))
  {
    hide BlockMarkers;
  }

  lemma WholeOwner(text: string)
    requires BlockMarkers(text).Context? || BlockMarkers(text) == Ended(Some(Whole))
    ensures RoutineMarker(text, OWNER_MARKER, IsOwner).Finished?
    ensures var rest := TrimStart(RoutineMarker(text, OWNER_MARKER, IsOwner).rest);
            Owned(text, rest) && !RoutineMarker(rest, LAUNCH_MARKER, IsLaunch).Unfinished?
  {
    hide RoutineMarker, AfterMarkers, Bytes, OWNER_MARKER, LAUNCH_MARKER;
  }

  /** The owner marker of a whole block is within the limit, and so is its
      launch marker, if it has one. */
  lemma WholeWithin(text: string, rest: string)
    requires Owned(text, rest) && (BlockMarkers(text).Context? || BlockMarkers(text) == Ended(Some(Whole)))
    ensures |rest| <= |text| && Bytes(text[..|text| - |rest|]) <= MARKERS_LIMIT
    ensures match RoutineMarker(rest, LAUNCH_MARKER, IsLaunch)
            case Finished(launched) => Bytes(text[..|text| - |TrimStart(launched)|]) <= MARKERS_LIMIT
            case Absent =>
              rest != "" && !IsWhite(rest[0]) ==>
                EVENT_CONTEXT_OPEN <= rest && Bytes(text[..|text| - |rest| + 21]) <= MARKERS_LIMIT
            case Unfinished => false
  {
    hide *;
    WholeOwner(text);
    OwnedIs(text, rest);
    if RoutineMarker(rest, LAUNCH_MARKER, IsLaunch).Finished? {
      LaunchedMarkers(text, rest);
      var left := TrimStart(RoutineMarker(rest, LAUNCH_MARKER, IsLaunch).rest);
      MarkersWithin(text, left);
      LaunchIsShorter(rest);
      PrefixBytes(text, |text| - |rest|, |text| - |left|);
    } else {
      AbsentMarkers(text, rest);
      MarkersWithin(text, rest);
    }
  }

  lemma LaunchIsShorter(rest: string)
    requires RoutineMarker(rest, LAUNCH_MARKER, IsLaunch).Finished?
    ensures |TrimStart(RoutineMarker(rest, LAUNCH_MARKER, IsLaunch).rest)| <= |rest|
  {
    hide RoutineMarker;
  }

  lemma OwnedIs(text: string, rest: string)
    requires Owned(text, rest)
    ensures |rest| <= |text| && rest == TrimStart(RoutineMarker(text, OWNER_MARKER, IsOwner).rest)
  {
    hide RoutineMarker;
  }

  /** A marker that ends later in the text takes what it lacks. */
  lemma PrefixNeeds(text: string, more: string, prefix: string, valid: string -> bool, lacks: string -> Option<nat>)
    requires Tells(valid, lacks) && IsTag(prefix) && |prefix| <= |text|
    requires RoutineMarker(text, prefix, valid).Unfinished? && RoutineMarker(text + more, prefix, valid).Finished?
    ensures var n, rest := EndLacks(text[|prefix|..], lacks), RoutineMarker(text + more, prefix, valid).rest;
            n.Some? && |text| + n.value + |rest| <= |text + more|
  {
    hide Tells, ReadValue, EndLacks, IsTag;
    var v := text[|prefix|..];
    UnfinishedParts(text, prefix, valid);
    assert text + more == prefix + (v + more);
    MarkerOpened(prefix, v + more, valid);
    MarkerNeeds(v, more, valid, lacks);
  }

  lemma OwnerIsNeeded(text: string, more: string)
    requires |OWNER_MARKER| <= |text| && RoutineMarker(text, OWNER_MARKER, IsOwner).Unfinished?
    requires BlockEnd(text + more) == Some(Whole)
    ensures Lacks(text).Some? && Bytes(text) + Lacks(text).value <= MARKERS_LIMIT
  {
    hide RoutineMarker, EndLacks, OwnerLacks, Bytes, BlockEnd, IsOwner, Tells, Owned, TrimStart, OWNER_MARKER, MARKERS_LIMIT;
    hide BlockMarkers;
    OwnerTag();
    OwnerTells();
    WholeMarkers(text + more);
    WholeOwner(text + more);
    var owned := RoutineMarker(text + more, OWNER_MARKER, IsOwner).rest;
    WholeWithin(text + more, TrimStart(owned));
    PrefixNeeds(text, more, OWNER_MARKER, IsOwner, OwnerLacks);
    GrowsWithin(text, more, Lacks(text).value, |text + more| - |TrimStart(owned)|);
  }

  /** A launch marker has an id and an end. */
  lemma LaunchIsLong(rest: string)
    requires RoutineMarker(rest, LAUNCH_MARKER, IsLaunch).Finished?
    ensures 23 + |RoutineMarker(rest, LAUNCH_MARKER, IsLaunch).rest| <= |rest|
  {
    hide RoutineMarker;
    LaunchTag();
    MarkerEnd();
    var id := FinishedParts(rest, LAUNCH_MARKER, IsLaunch);
  }

  lemma LaunchOpensNot(rest: string, more: string)
    requires rest != "" && EVENT_CONTEXT_OPEN <= rest + more && RoutineMarker(rest, LAUNCH_MARKER, IsLaunch).Unfinished?
    ensures rest == "<"
  {
    hide ReadValue, EVENT_CONTEXT_OPEN;
    assert 1 < |rest| ==> rest[1] == (rest + more)[1];
    OpenTag();
    LaunchTag();
    TagsDiffer();
    TagFacts(LAUNCH_MARKER);
    AsciiBytes(LAUNCH_MARKER);
    assert rest[0] == LAUNCH_MARKER[0] == '<';
  }

  /** Where the opening tag follows, what it lacks is within the limit. */
  lemma OpenIsNeeded(text: string, rest: string, more: string)
    requires rest != "" && !(EVENT_CONTEXT_OPEN <= rest) && EVENT_CONTEXT_OPEN <= rest + more && |rest| <= |text|
    requires Bytes((text + more)[..|text| - |rest| + 21]) <= MARKERS_LIMIT
    ensures OpenLacks(rest).Some? && Bytes(text) + OpenLacks(rest).value <= MARKERS_LIMIT
  {
    hide EVENT_CONTEXT_OPEN, Bytes, MARKERS_LIMIT;
    OpenTag();
    PrefixesCompare(EVENT_CONTEXT_OPEN, rest, rest + more);
    assert rest == (rest + more)[..|rest|] == EVENT_CONTEXT_OPEN[..|rest|];
    GrowsWithin(text, more, 21 - |rest|, |text| - |rest| + 21);
  }

  lemma FollowsNeeded(text: string, rest: string, more: string)
    requires Owned(text, rest) && rest != "" && !IsWhite(rest[0]) && BlockEnd(text + more) == Some(Whole)
    requires RoutineMarker(rest, LAUNCH_MARKER, IsLaunch).Absent? && !(EVENT_CONTEXT_OPEN <= rest)
    ensures OpenLacks(rest).Some? && Bytes(text) + OpenLacks(rest).value <= MARKERS_LIMIT
  {
    hide *;
    LaunchTag();
    OwnedIs(text, rest);
    OwnedMore(text, rest, more);
    AbsentStays(rest, more, LAUNCH_MARKER, IsLaunch);
    WholeMarkers(text + more);
    WholeWithin(text + more, rest + more);
    assert (rest + more)[0] == rest[0];
    OpenIsNeeded(text, rest, more);
  }

  lemma LaunchedNeeded(text: string, rest: string, more: string)
    requires Owned(text, rest) && RoutineMarker(rest, LAUNCH_MARKER, IsLaunch).Finished?
    requires BlockEnd(text + more) == Some(Whole)
    requires var left := TrimStart(RoutineMarker(rest, LAUNCH_MARKER, IsLaunch).rest);
             left != "" && !(EVENT_CONTEXT_OPEN <= left)
    ensures var left := TrimStart(RoutineMarker(rest, LAUNCH_MARKER, IsLaunch).rest);
            OpenLacks(left).Some? && Bytes(text) + OpenLacks(left).value <= MARKERS_LIMIT
  {
    hide *;
    var launched := RoutineMarker(rest, LAUNCH_MARKER, IsLaunch).rest;
    var left := TrimStart(launched);
    FinishedIsText(rest);
    OwnedIs(text, rest);
    LaunchIsShorter(rest);
    OwnedMore(text, rest, more);
    MarkerExtends(rest, more, LAUNCH_MARKER, IsLaunch);
    TrimStartMore(launched, more);
    WholeMarkers(text + more);
    LaunchedMarkers(text + more, rest + more);
    MarkersWithin(text + more, left + more);
    assert (left + more)[0] == left[0];
    OpenIsNeeded(text, left, more);
  }

  lemma LaunchNeeded(text: string, rest: string, more: string)
    requires Owned(text, rest) && rest != "" && !IsWhite(rest[0]) && BlockEnd(text + more) == Some(Whole)
    requires RoutineMarker(rest, LAUNCH_MARKER, IsLaunch).Unfinished?
    ensures RestLacks(rest).Some? && Bytes(text) + RestLacks(rest).value <= MARKERS_LIMIT
  {
    hide Owned, RoutineMarker, OpenLacks, EndLacks, LaunchLacks, Bytes, BlockEnd, IsLaunch, TrimStart, Tells;
    hide LAUNCH_MARKER, MARKERS_LIMIT, EVENT_CONTEXT_OPEN, BlockMarkers, IsSuffix;
    LaunchTag();
    OpenTag();
    OwnedIs(text, rest);
    OwnedMore(text, rest, more);
    WholeMarkers(text + more);
    WholeWithin(text + more, rest + more);
    assert (rest + more)[0] == rest[0];
    match RoutineMarker(rest + more, LAUNCH_MARKER, IsLaunch)
    case Absent =>
      LaunchOpensNot(rest, more);
      GrowsWithin(text, more, 20, |text| - |rest| + 21);
    case Finished(launched) =>
      LaunchIsLong(rest + more);
      var e := |text + more| - |TrimStart(launched)|;
      if |rest| < |LAUNCH_MARKER| {
        GrowsWithin(text, more, 23 - |rest|, e);
      } else {
        LaunchTells();
        PrefixNeeds(rest, more, LAUNCH_MARKER, IsLaunch, LaunchLacks);
        GrowsWithin(text, more, RestLacks(rest).value, e);
      }
  }

  lemma CutNeeds(text: string, more: string)
    requires BlockMarkers(text) == Ended(Some(Cut)) && text != "" && BlockEnd(text + more) == Some(Whole)
    ensures Lacks(text).Some? && Bytes(text) + Lacks(text).value <= MARKERS_LIMIT
  {
    hide RoutineMarker, BlockMarkers, BlockEnd, Bytes, Owned, EndLacks, OpenLacks, TrimStart, OWNER_MARKER;
    hide LAUNCH_MARKER, EVENT_CONTEXT_OPEN;
    OwnerTag();
    if |text| < |OWNER_MARKER| {
      ShortOwner(text);
      ShortBytes(text);
    } else {
      CutParts(text);
      match RoutineMarker(text, OWNER_MARKER, IsOwner)
      case Unfinished => OwnerIsNeeded(text, more);
      case Finished(owned) =>
        var rest := TrimStart(owned);
        match RoutineMarker(rest, LAUNCH_MARKER, IsLaunch)
        case Unfinished => LaunchNeeded(text, rest, more);
        case Absent => FollowsNeeded(text, rest, more);
        case Finished(_) => LaunchedNeeded(text, rest, more);
    }
  }

  lemma ShortBytes(text: string)
    requires text <= OWNER_MARKER
    ensures Bytes(text) == |text|
  {
    OwnerTag();
    TagFacts(OWNER_MARKER);
    ShortPrefix(text, OWNER_MARKER);
  }

  /** A live scan may yet see a whole block exactly when what the text read
      lacks of one is not too much for the limit. */
  lemma LiveMayComplete(s: Scan, text: string)
    requires HasRead(s, text) && text != "" && IsAlive(s)
    ensures (exists more :: BlockEnd(text + more) == Some(Whole)) <==> Completable(text)
  {
    hide Lacks, BlockEnd, Bytes, Summarises, BlockMarkers, MARKERS_LIMIT;
    if Completable(text) {
      var more := LiveCompletes(s, text);
    }
    if more :| BlockEnd(text + more) == Some(Whole) {
      if s.context.None? && BlockMarkers(text) == Ended(Some(Cut)) { CutNeeds(text, more); }
    }
  }

  // ----- Live, and never whole

  /** A text that may be the start of a block, and that nothing completes. */
  ghost predicate LivesInVain(text: string) {
    IsAlive(Read(UNREAD, text)) && forall more :: BlockEnd(text + more) != Some(Whole)
  }

  lemma CutInVain(text: string)
    requires BlockMarkers(text) == Ended(Some(Cut)) && text != "" && !Completable(text)
    ensures LivesInVain(text)
  {
    hide BlockMarkers, Bytes, Lacks, BlockEnd, Completable, Summarises;
    NothingRead();
    ReadKeeps(UNREAD, "", text);
    assert "" + text == text;
    LiveMayComplete(Read(UNREAD, text), text);
  }

  lemma OpenedValue(text: string, v: string)
    requires text == OWNER_MARKER + v && '\n' !in v && !Contains(v, MARKER_END) && Bytes(text) <= MARKERS_LIMIT
    ensures BlockMarkers(text) == Ended(Some(Cut)) && Lacks(text) == EndLacks(v, OwnerLacks)
  {
    hide Bytes, Contains, EndLacks, OWNER_MARKER, MARKERS_LIMIT;
    OwnerTag();
    MarkerOpened(OWNER_MARKER, v, IsOwner);
    assert text[|OWNER_MARKER|..] == v;
    NotFound(v);
  }

  lemma NotFound(v: string)
    requires !Contains(v, MARKER_END)
    ensures Find(v, MARKER_END).None?
  {
    hide Contains;
    if Find(v, MARKER_END).Some? { AtContains(v, MARKER_END, Find(v, MARKER_END).value); }
  }

  lemma NoEnd(v: string)
    requires forall i :: 0 <= i < |v| ==> v[i] != '>'
    ensures !Contains(v, MARKER_END)
  {
    if Contains(v, MARKER_END) {
      var i :| 0 <= i <= |v| && At(v, MARKER_END, i);
      EndChar(v, i);
    }
  }

  lemma EndChar(v: string, i: nat)
    requires At(v, MARKER_END, i)
    ensures i + 4 <= |v| && v[i + 3] == '>'
  {
    MarkerEnd();
    assert v[i + 3] == v[i..i + 4][3];
  }

  /** A value that starts with the colon: no owner has an empty kind. */
  lemma NoKindInVain()
    ensures LivesInVain(OWNER_MARKER + ":")
  {
    hide OWNER_MARKER;
    OwnerTag();
    TagFacts(OWNER_MARKER);
    AsciiBytes(OWNER_MARKER);
    BytesConcat(OWNER_MARKER, ":");
    AsciiBytes(":");
    NoEnd(":");
    OpenedValue(OWNER_MARKER + ":", ":");
    CharFound(":", 0);
    CutInVain(OWNER_MARKER + ":");
  }

  /** White space after the start of an opening tag. */
  lemma SpaceInVain()
    ensures LivesInVain(OWNER_MARKER + ("a:b" + MARKER_END + "<s "))
  {
    hide RoutineMarker, IsValue, TrimEnd, LivesInVain;
    var text, rest := OWNER_MARKER + ("a:b" + MARKER_END + "<s "), "<s ";
    SmallOwner();
    MarkerPrinted(OWNER_MARKER, "a:b", rest, IsOwner);
    assert Ascii(text) && |text| == 27;
    AsciiBytes(text);
    SpaceIsAbsent(rest);
    assert rest[..2] == "<s";
    TrimEndIsUnique(rest, "<s");
    CutInVain(text);
  }

  lemma SpaceIsAbsent(rest: string)
    requires rest == "<s "
    ensures RoutineMarker(rest, LAUNCH_MARKER, IsLaunch).Absent? && TrimStart(rest) == rest
  {
    hide LAUNCH_MARKER;
    LaunchTag();
    TagsDiffer();
    TagFacts(LAUNCH_MARKER);
    AsciiBytes(LAUNCH_MARKER);
    AsciiBytes(rest);
  }

  /** A value that leaves its marker no room for an end. */
  lemma FullInVain(path: string)
    requires Ascii(path) && |path| == MARKERS_LIMIT - |OWNER_MARKER| - 2
    requires forall i :: 0 <= i < |path| ==> path[i] != '>' && path[i] != '\n' && path[i] != ' ' && path[i] != '-'
    ensures LivesInVain(OWNER_MARKER + ("a:" + path))
  {
    hide OWNER_MARKER, LivesInVain;
    OwnerTag();
    TagFacts(OWNER_MARKER);
    var v := "a:" + path;
    AsciiBytes(OWNER_MARKER);
    AsciiBytes(v);
    BytesConcat(OWNER_MARKER, v);
    NoEnd(v);
    OpenedValue(OWNER_MARKER + v, v);
    CharFound(v, 1);
    CutInVain(OWNER_MARKER + v);
  }
}
