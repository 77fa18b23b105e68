/** The event context of a Routine block, read piece by piece: `ContextScan`
    of `registry.rs` as values, and what it knows of the text it read. */
module ContextScan {
  import opened Text
  import opened RoutineBlock

  /** Bytes of text a tag may continue from. */
  const CARRY: nat := 21

  datatype ContextState = ContextState(open: bool, owner: bool, closes: nat, afterClose: bool, carry: string)

  const FRESH := ContextState(false, false, 0, false, "")

  /** Ends of the occurrences found at `starts` that lie after `carried`. */
  function EndsAfter(starts: seq<nat>, length: nat, carried: nat): (ends: seq<nat>)
    ensures forall e :: e in ends ==> carried < e && length <= e && e - length in starts
  {
    if starts == [] then []
    else
      var rest := EndsAfter(starts[1..], length, carried);
      if starts[0] + length > carried then [starts[0] + length] + rest else rest
  }

  function Found(text: string, tag: string, carried: nat): (ends: seq<nat>)
    requires tag != ""
    ensures forall e :: e in ends ==> carried < e && EndsAt(text, tag, e)
  {
    EndsAfter(MatchIndices(text, tag), |tag|, carried)
  }

  function Carried(text: string): string {
    text[FloorChars(text, if Bytes(text) < CARRY then 0 else Bytes(text) - CARRY)..]
  }

  /** `closes` is a `u8` that saturates. */
  function SaturatingAdd(closes: nat, more: nat): nat {
    if closes + more <= 255 then closes + more else 255
  }

  /** `ContextScan::push` */
  function Pushed(c: ContextState, more: string): ContextState {
    var text := c.carry + more;
    var carried := |c.carry|;
    var closes := Found(text, EVENT_CONTEXT_CLOSE, carried);
    ContextState(
      c.open || Found(text, EVENT_CONTEXT_OPEN, carried) != [],
      c.owner || Found(text, OWNER_MARKER, carried) != [],
      if closes != [] then SaturatingAdd(c.closes, if |closes| < 2 then |closes| else 2) else c.closes,
      if closes != [] then
        var last := closes[|closes| - 1];
        assert last in closes;
        Trim(text[last..]) != ""
      else c.afterClose || (c.closes > 0 && Trim(more) != ""),
      Carried(text))
  }

  predicate Alive(c: ContextState) {
    !c.open && (c.closes == 0 || (c.closes == 1 && !c.afterClose))
  }

  function ContextEnd(c: ContextState): Option<End> {
    if !Alive(c) then None
    else if c.closes == 0 then (if !c.owner then Some(Cut) else None)
    else Some(Whole)
  }

  // ----- What a text holds

  /** An occurrence of `tag` ends at `e`. */
  predicate EndsAt(text: string, tag: string, e: nat) {
    |tag| <= e <= |text| && text[e - |tag|..e] == tag
  }

  /** Occurrences of `tag` that end after `lo`. */
  ghost function Count(text: string, tag: string, lo: nat): nat {
    if |text| <= lo then 0
    else Count(text[..|text| - 1], tag, lo) + (if EndsAt(text, tag, |text|) then 1 else 0)
  }

  /** Where the last of them ends. */
  ghost function LastEnd(text: string, tag: string, lo: nat): (e: nat)
    requires Count(text, tag, lo) > 0
    ensures lo < e <= |text|
  {
    if EndsAt(text, tag, |text|) then |text| else LastEnd(text[..|text| - 1], tag, lo)
  }

  lemma EndsInPrefix(text: string, more: string, tag: string, e: nat)
    requires e <= |text|
    ensures EndsAt(text + more, tag, e) <==> EndsAt(text, tag, e)
  {
    if |tag| <= e { assert (text + more)[e - |tag|..e] == text[e - |tag|..e]; }
  }

  lemma {:induction false} CountSplits(text: string, more: string, tag: string)
    ensures Count(text + more, tag, 0) == Count(text, tag, 0) + Count(text + more, tag, |text|)
  {
    if more == "" {
      assert text + more == text;
    } else {
      assert (text + more)[..|text + more| - 1] == text + more[..|more| - 1];
      CountSplits(text, more[..|more| - 1], tag);
    }
  }

  lemma {:induction false} LastEndSplits(text: string, more: string, tag: string)
    requires Count(text + more, tag, 0) > 0
    ensures Count(text + more, tag, |text|) > 0 ==>
              LastEnd(text + more, tag, 0) == LastEnd(text + more, tag, |text|)
    ensures Count(text + more, tag, |text|) == 0 ==>
              Count(text, tag, 0) > 0 && LastEnd(text + more, tag, 0) == LastEnd(text, tag, 0)
  {
    CountSplits(text, more, tag);
    if more == "" {
      assert text + more == text;
    } else if !EndsAt(text + more, tag, |text + more|) {
      assert (text + more)[..|text + more| - 1] == text + more[..|more| - 1];
      LastEndSplits(text, more[..|more| - 1], tag);
    }
  }

  lemma FirstIn(s: seq<nat>)
    requires s != []
    ensures s[0] in s
  {
  }

  /** The greatest of increasing places is the last; the others come before. */
  lemma LastIsGreatest(ends: seq<nat>, e: nat)
    requires Increasing(ends) && e in ends && forall d :: d in ends ==> d <= e
    ensures ends[|ends| - 1] == e && Increasing(ends[..|ends| - 1])
    ensures forall d :: d in ends[..|ends| - 1] <==> d in ends && d != e
  {
    var i :| 0 <= i < |ends| && ends[i] == e;
    assert ends[|ends| - 1] in ends;
    forall d ensures d in ends[..|ends| - 1] <==> d in ends && d != e {
      if d in ends {
        var j :| 0 <= j < |ends| && ends[j] == d;
        assert j < |ends| - 1 ==> ends[..|ends| - 1][j] == d;
      }
    }
  }

  lemma CountStep(s: string, last: string, tag: string, lo: nat)
    requires |last| == 1 && lo <= |s|
    ensures Count(s + last, tag, lo) == Count(s, tag, lo) + (if EndsAt(s + last, tag, |s| + 1) then 1 else 0)
    ensures Count(s + last, tag, lo) > 0 ==>
              if EndsAt(s + last, tag, |s| + 1) then LastEnd(s + last, tag, lo) == |s| + 1
              else Count(s, tag, lo) > 0 && LastEnd(s + last, tag, lo) == LastEnd(s, tag, lo)
  {
    hide EndsAt, Bytes;
    assert (s + last)[..|s + last| - 1] == s;
  }

  lemma EndsAfterStep(s: string, last: string, tag: string, lo: nat, ends: seq<nat>) returns (before: seq<nat>)
    requires |last| == 1 && lo <= |s| && Increasing(ends)
    requires forall e: nat :: e in ends <==> lo < e && EndsAt(s + last, tag, e)
    ensures Increasing(before)
    ensures forall e: nat :: e in before <==> lo < e && EndsAt(s, tag, e)
    ensures if EndsAt(s + last, tag, |s| + 1) then |ends| == |before| + 1 && ends[|before|] == |s| + 1
            else ends == before
  {
    hide Increasing;
    forall e: nat ensures EndsAt(s, tag, e) <==> e != |s| + 1 && EndsAt(s + last, tag, e) {
      if e <= |s| { EndsInPrefix(s, last, tag, e); }
    }
    if EndsAt(s + last, tag, |s| + 1) {
      LastIsGreatest(ends, |s| + 1);
      before := ends[..|ends| - 1];
    } else {
      before := ends;
    }
  }

  /** `Count` and `LastEnd` describe what `match_indices` finds. */
  lemma {:induction false} CountIsFound(text: string, tag: string, lo: nat, ends: seq<nat>)
    requires Increasing(ends)
    requires forall e: nat :: e in ends <==> lo < e && EndsAt(text, tag, e)
    ensures |ends| == Count(text, tag, lo)
    ensures ends != [] ==> ends[|ends| - 1] == LastEnd(text, tag, lo)
    decreases |text|
  {
    hide EndsAt, Increasing, Bytes;
    if |text| <= lo {
      NoEndsBeyond(text, tag, lo);
      if ends != [] { FirstIn(ends); }
    } else {
      var s, last := text[..|text| - 1], text[|text| - 1..];
      assert s + last == text;
      var before := EndsAfterStep(s, last, tag, lo, ends);
      CountIsFound(s, tag, lo, before);
      CountStep(s, last, tag, lo);
    }
  }

  lemma NoEndsBeyond(text: string, tag: string, lo: nat)
    requires |text| <= lo
    ensures forall e: nat :: lo < e ==> !EndsAt(text, tag, e)
  {
  }

  lemma {:induction false} EndsAfterIncrease(starts: seq<nat>, length: nat, carried: nat)
    requires Increasing(starts)
    ensures Increasing(EndsAfter(starts, length, carried))
  {
    if starts != [] {
      EndsAfterIncrease(starts[1..], length, carried);
      var rest := EndsAfter(starts[1..], length, carried);
      forall j | 0 <= j < |rest| ensures starts[0] + length < rest[j] {
        assert rest[j] in rest;
      }
    }
  }

  lemma {:induction false} EndsAfterHolds(starts: seq<nat>, length: nat, carried: nat, start: nat)
    requires start in starts && carried < start + length
    ensures start + length in EndsAfter(starts, length, carried)
  {
    if start != starts[0] {
      assert start in starts[1..];
      EndsAfterHolds(starts[1..], length, carried, start);
    }
  }

  lemma FoundIsCount(text: string, tag: string, carried: nat)
    requires IsTag(tag)
    ensures |Found(text, tag, carried)| == Count(text, tag, carried)
    ensures Found(text, tag, carried) != [] ==>
              Found(text, tag, carried)[|Found(text, tag, carried)| - 1] == LastEnd(text, tag, carried)
  {
    hide Count, LastEnd, EndsAfter, MatchIndicesFrom, Increasing, Unbordered;
    TagFacts(tag);
    var starts := MatchIndices(text, tag);
    MatchIndicesFindAll(text, tag);
    EndsAfterIncrease(starts, |tag|, carried);
    var ends := Found(text, tag, carried);
    forall e: nat ensures e in ends <==> carried < e && EndsAt(text, tag, e) {
      if carried < e && EndsAt(text, tag, e) {
        assert At(text, tag, e - |tag|);
        EndsAfterHolds(starts, |tag|, carried, e - |tag|);
      }
    }
    CountIsFound(text, tag, carried, ends);
  }

  // ----- What the scan knows

  /** What is carried over is the end of the text, all of it or enough of it
      to hold whatever part of a tag the text may end with. */
  ghost predicate Carries(carry: string, text: string) {
    && |carry| <= |text| && carry == text[|text| - |carry|..]
    && (carry == text || CARRY <= Bytes(carry))
    && Bytes(carry) <= CARRY + 3
  }

  ghost predicate TextAfter(text: string, tag: string) {
    Count(text, tag, 0) > 0 && !AllWhite(text[LastEnd(text, tag, 0)..])
  }

  /** The scan `c` read `text`. */
  ghost predicate Summarises(c: ContextState, text: string) {
    && c.open == (Count(text, EVENT_CONTEXT_OPEN, 0) > 0)
    && c.owner == (Count(text, OWNER_MARKER, 0) > 0)
    && (c.closes == 0 <==> Count(text, EVENT_CONTEXT_CLOSE, 0) == 0)
    && (c.closes == 1 <==> Count(text, EVENT_CONTEXT_CLOSE, 0) == 1)
    && c.afterClose == TextAfter(text, EVENT_CONTEXT_CLOSE)
    && Carries(c.carry, text)
  }

  /** A tag that ends after the carried text lies within it and what follows. */
  lemma EndsWithinCarry(carry: string, text: string, more: string, tag: string, e: nat)
    requires Carries(carry, text) && IsTag(tag) && |carry| < e <= |carry + more|
    ensures EndsAt(carry + more, tag, e) <==> EndsAt(text + more, tag, |text| - |carry| + e)
  {
    hide Bytes, IsTag;
    var d := |text| - |carry|;
    assert text + more == text[..d] + (carry + more);
    if |tag| <= e {
    } else if |tag| <= d + e {
      TagHoldsCarry(carry, text, more, tag, d + e - |tag|);
    }
  }

  /** No tag that starts before the carried text ends after it: the text
      carried would then be all tag, and shorter than what is carried. */
  lemma TagHoldsCarry(carry: string, text: string, more: string, tag: string, start: nat)
    requires Carries(carry, text) && IsTag(tag)
    requires start < |text| - |carry| && |text| < start + |tag| <= |text + more|
    ensures !At(text + more, tag, start)
  {
    hide Bytes;
    var d := |text| - |carry|;
    if At(text + more, tag, start) {
      CarryInTag(text + more, tag, start, d, |text|);
      assert (text + more)[d..|text|] == carry;
      TagFacts(tag);
      AsciiBytes(carry);
    }
  }

  lemma CarryInTag(s: string, tag: string, start: nat, lo: nat, hi: nat)
    requires At(s, tag, start) && start <= lo <= hi <= start + |tag|
    ensures s[lo..hi] == tag[lo - start..hi - start]
  {
    forall k | lo <= k < hi ensures s[k] == tag[k - start] {
      assert s[k] == s[start..start + |tag|][k - start];
    }
  }

  lemma {:induction false} CountOverCarry(carry: string, text: string, more: string, tag: string)
    requires Carries(carry, text) && IsTag(tag)
    ensures Count(carry + more, tag, |carry|) == Count(text + more, tag, |text|)
    ensures Count(carry + more, tag, |carry|) > 0 ==>
              LastEnd(carry + more, tag, |carry|) + (|text| - |carry|) == LastEnd(text + more, tag, |text|)
  {
    hide *;
    if more != "" {
      var less, last := more[..|more| - 1], more[|more| - 1..];
      assert carry + more == carry + less + last && text + more == text + less + last;
      CountOverCarry(carry, text, less, tag);
      CountStep(carry + less, last, tag, |carry|);
      CountStep(text + less, last, tag, |text|);
      EndsWithinCarry(carry, text, more, tag, |carry + more|);
    } else {
      assert carry + more == carry && text + more == text;
      CountNone(carry, tag);
      CountNone(text, tag);
    }
  }

  lemma CountNone(text: string, tag: string)
    ensures Count(text, tag, |text|) == 0
  {
  }

  lemma CarriedBytes(whole: string)
    ensures |Carried(whole)| <= |whole| && Carried(whole) == whole[|whole| - |Carried(whole)|..]
    ensures Bytes(whole) <= CARRY ==> Carried(whole) == whole
    ensures CARRY <= Bytes(whole) ==> CARRY <= Bytes(Carried(whole)) <= CARRY + 3
  {
    hide Bytes, FloorChars;
    var cut := if Bytes(whole) < CARRY then 0 else Bytes(whole) - CARRY;
    var i := FloorChars(whole, cut);
    BytesSplit(whole, i);
    if i < |whole| {
      WidthBetween(whole, i);
    } else {
      assert whole[..i] == whole;
    }
    PrefixBytes(whole, 0, i);
  }

  lemma CarriedCarries(carry: string, text: string, more: string)
    requires Carries(carry, text)
    ensures Carries(Carried(carry + more), text + more)
  {
    hide Bytes, Carried;
    var kept := Carried(carry + more);
    CarriedBytes(carry + more);
    BytesConcat(carry, more);
  }

  /** What a push finds of a tag is what the whole text gains of it. */
  lemma TagGained(carry: string, text: string, more: string, tag: string)
    requires Carries(carry, text) && IsTag(tag)
    ensures var found := Found(carry + more, tag, |carry|);
            && Count(text + more, tag, 0) == Count(text, tag, 0) + |found|
            && (found != [] ==>
                  found[|found| - 1] + (|text| - |carry|) == LastEnd(text + more, tag, 0))
            && (found == [] && Count(text, tag, 0) > 0 ==> LastEnd(text + more, tag, 0) == LastEnd(text, tag, 0))
  {
    hide *;
    TagNotEmpty(tag);
    FoundIsCount(carry + more, tag, |carry|);
    CountOverCarry(carry, text, more, tag);
    CountSplits(text, more, tag);
    if Count(text + more, tag, 0) > 0 { LastEndSplits(text, more, tag); }
  }

  lemma TagNotEmpty(tag: string)
    requires IsTag(tag)
    ensures tag != ""
  {
  }

  /** Text after the last closing tag, before and after a push. */
  lemma TextAfterPush(carry: string, text: string, more: string, tag: string)
    requires Carries(carry, text) && IsTag(tag)
    ensures var found := Found(carry + more, tag, |carry|);
            TextAfter(text + more, tag) ==
              if found != [] then
                assert found[|found| - 1] in found;
                !AllWhite((carry + more)[found[|found| - 1]..])
              else TextAfter(text, tag) || (Count(text, tag, 0) > 0 && !AllWhite(more))
  {
    hide Found, Count, Carries, IsTag, AllWhite;
    TagNotEmpty(tag);
    TagGained(carry, text, more, tag);
    var found := Found(carry + more, tag, |carry|);
    if found != [] {
      assert found[|found| - 1] in found;
      SameTail(carry, text, more, found[|found| - 1]);
    } else if Count(text, tag, 0) > 0 {
      var e := LastEnd(text, tag, 0);
      assert (text + more)[e..] == text[e..] + more;
      AllWhiteJoins(text[e..], more);
    }
  }

  lemma AllWhiteJoins(s: string, t: string)
    ensures AllWhite(s + t) <==> AllWhite(s) && AllWhite(t)
  {
    if AllWhite(s + t) {
      forall i | 0 <= i < |s| ensures IsWhite(s[i]) { assert s[i] == (s + t)[i]; }
      forall i | 0 <= i < |t| ensures IsWhite(t[i]) { assert t[i] == (s + t)[|s| + i]; }
    }
  }

  lemma SameTail(carry: string, text: string, more: string, e: nat)
    requires Carries(carry, text) && e <= |carry + more|
    ensures |text| - |carry| + e <= |text + more|
    ensures (carry + more)[e..] == (text + more)[|text| - |carry| + e..]
  {
    assert (text + more)[|text| - |carry|..] == carry + more;
  }

  /** What a push does to each part of the scan. */
  lemma PushedParts(c: ContextState, more: string)
    ensures Pushed(c, more).open == (c.open || Found(c.carry + more, EVENT_CONTEXT_OPEN, |c.carry|) != [])
    ensures Pushed(c, more).owner == (c.owner || Found(c.carry + more, OWNER_MARKER, |c.carry|) != [])
    ensures Pushed(c, more).carry == Carried(c.carry + more)
  {
    hide Found, Carried, Trim, Bytes, OWNER_MARKER, EVENT_CONTEXT_OPEN, EVENT_CONTEXT_CLOSE;
    TagsNotEmpty();
  }

  lemma TagsNotEmpty()
    ensures OWNER_MARKER != "" && EVENT_CONTEXT_OPEN != "" && EVENT_CONTEXT_CLOSE != ""
  {
  }

  lemma PushedCloses(c: ContextState, more: string)
    ensures var found := Found(c.carry + more, EVENT_CONTEXT_CLOSE, |c.carry|);
            var next := Pushed(c, more);
            && (next.closes == 0 <==> c.closes + |found| == 0)
            && (next.closes == 1 <==> c.closes + |found| == 1)
            && next.afterClose ==
                 if found != [] then
                   assert found[|found| - 1] in found;
                   !AllWhite((c.carry + more)[found[|found| - 1]..])
                 else c.afterClose || (c.closes > 0 && !AllWhite(more))
  {
    hide Found, Carried, Trim, AllWhite, Bytes, OWNER_MARKER, EVENT_CONTEXT_OPEN, EVENT_CONTEXT_CLOSE;
    TagsNotEmpty();
    var found := Found(c.carry + more, EVENT_CONTEXT_CLOSE, |c.carry|);
    if found != [] {
      assert found[|found| - 1] in found;
      AllWhiteTrims((c.carry + more)[found[|found| - 1]..]);
    } else {
      AllWhiteTrims(more);
    }
  }

  /** A push keeps the scan's knowledge true of the longer text. */
  lemma PushSummarises(c: ContextState, text: string, more: string)
    requires Summarises(c, text)
    ensures Summarises(Pushed(c, more), text + more)
  {
    hide Pushed, Found, Count, TextAfter, Carries, IsTag, Carried, AllWhite, Bytes;
    hide OWNER_MARKER, EVENT_CONTEXT_OPEN, EVENT_CONTEXT_CLOSE;
    OwnerTag();
    OpenTag();
    CloseTag();
    PushedParts(c, more);
    PushedCloses(c, more);
    TagGained(c.carry, text, more, EVENT_CONTEXT_OPEN);
    TagGained(c.carry, text, more, OWNER_MARKER);
    TagGained(c.carry, text, more, EVENT_CONTEXT_CLOSE);
    TextAfterPush(c.carry, text, more, EVENT_CONTEXT_CLOSE);
    CarriedCarries(c.carry, text, more);
  }

  /** Two scans of one text, however it was cut, say the same of it. */
  lemma SameTextSameEnd(c: ContextState, d: ContextState, text: string)
    requires Summarises(c, text) && Summarises(d, text)
    ensures ContextEnd(c) == ContextEnd(d) && Alive(c) == Alive(d)
  {
  }

  lemma OnePushSummarises(text: string)
    ensures Summarises(Pushed(FRESH, text), text)
  {
    PushSummarises(FRESH, "", text);
    assert "" + text == text;
  }

  /** A dead context stays dead whatever follows. */
  lemma DeadContextStays(text: string, more: string)
    requires ContextEnd(Pushed(FRESH, text)).None? && !Alive(Pushed(FRESH, text))
    ensures ContextEnd(Pushed(FRESH, text + more)).None?
  {
    hide Pushed, Count, Carries, AllWhite;
    OnePushSummarises(text);
    OnePushSummarises(text + more);
    CountSplits(text, more, EVENT_CONTEXT_OPEN);
    CountSplits(text, more, EVENT_CONTEXT_CLOSE);
    var tag := EVENT_CONTEXT_CLOSE;
    if Count(text, tag, 0) == 1 && Count(text + more, tag, 0) == 1 {
      LastEndSplits(text, more, tag);
      var e := LastEnd(text, tag, 0);
      assert (text + more)[e..] == text[e..] + more;
      AllWhiteJoins(text[e..], more);
    }
  }

  // ----- The scan in place

  /** `ContextScan` */
  class ContextReader {
    var open: bool
    var owner: bool
    var closes: nat
    var afterClose: bool
    var carry: string

    ghost function State(): ContextState
      reads this
    {
      ContextState(open, owner, closes, afterClose, carry)
    }

    constructor ()
      ensures State() == FRESH
    {
      open, owner, closes, afterClose, carry := false, false, 0, false, "";
    }

    method Push(more: string)
      modifies this
      ensures State() == Pushed(old(State()), more)
    {
      hide Found, Carried, Trim, Bytes;
      var carried := |carry|;
      var text := carry + more;
      open := open || Found(text, EVENT_CONTEXT_OPEN, carried) != [];
      owner := owner || Found(text, OWNER_MARKER, carried) != [];
      var found := Found(text, EVENT_CONTEXT_CLOSE, carried);
      if found != [] {
        var last := found[|found| - 1];
        assert last in found;
        closes := SaturatingAdd(closes, if |found| < 2 then |found| else 2);
        afterClose := Trim(text[last..]) != "";
      } else if closes > 0 && Trim(more) != "" {
        afterClose := true;
      }
      carry := Carried(text);
    }

    method IsLive() returns (live: bool)
      ensures live == Alive(State())
    {
      live := !open && (closes == 0 || (closes == 1 && !afterClose));
    }

    method End() returns (end: Option<End>)
      ensures end == ContextEnd(State())
    {
      var live := IsLive();
      if !live {
        end := None;
      } else if closes == 0 {
        end := if !owner then Some(Cut) else None;
      } else {
        end := Some(Whole);
      }
    }
  }
}
