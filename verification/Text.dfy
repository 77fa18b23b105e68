/** Text as Rust's `str` holds it. A Dafny `string` is a sequence of Unicode
    scalar values, and so is a `str`; what Rust adds is that lengths and slice
    positions count UTF-8 bytes. Positions here count characters, and `Bytes`
    is the length Rust reports for what lies before them. */
module Text {

  datatype Option<+T> = None | Some(value: T) {
    function UnwrapOr(default: T): T {
      match this
      case Some(v) => v
      case None => default
    }
  }

  // ----- UTF-8 lengths

  /** Bytes of one character in UTF-8 (section 3 of RFC 3629). */
  function Width(c: char): (w: nat)
    ensures 1 <= w <= 4
  {
    if c as int < 0x80 then 1 else if c as int < 0x800 then 2 else if c as int < 0x10000 then 3 else 4
  }

  /** `text.len()` */
  function Bytes(s: string): nat {
    if s == "" then 0 else Bytes(s[..|s| - 1]) + Width(s[|s| - 1])
  }

  lemma {:induction false} BytesConcat(s: string, t: string)
    ensures Bytes(s + t) == Bytes(s) + Bytes(t)
  {
    if t == "" {
      assert s + t == s;
    } else {
      assert (s + t)[..|s + t| - 1] == s + t[..|t| - 1];
      BytesConcat(s, t[..|t| - 1]);
    }
  }

  lemma BytesSplit(s: string, i: nat)
    requires i <= |s|
    ensures Bytes(s) == Bytes(s[..i]) + Bytes(s[i..])
  {
    assert s == s[..i] + s[i..];
    BytesConcat(s[..i], s[i..]);
  }

  /** A longer prefix has more bytes, one at least for each further character. */
  lemma PrefixBytes(s: string, i: nat, j: nat)
    requires i <= j <= |s|
    ensures Bytes(s[..i]) + (j - i) <= Bytes(s[..j])
    decreases j
  {
    if i < j {
      PrefixBytes(s, i, j - 1);
      assert s[..j][..j - 1] == s[..j - 1];
    }
  }

  lemma PrefixIsShorter(s: string, t: string)
    requires t <= s
    ensures Bytes(t) <= Bytes(s)
  {
    assert t == s[..|t|];
    BytesSplit(s, |t|);
  }

  lemma WidthBetween(s: string, i: nat)
    requires i < |s|
    ensures Bytes(s[..i]) < Bytes(s[..i + 1]) <= Bytes(s[..i]) + 4
  {
    assert s[..i + 1][..i] == s[..i];
  }

  lemma PrefixPastBytes(s: string, t: string, i: nat)
    requires i <= |t|
    ensures Bytes((s + t)[..|s| + i]) == Bytes(s) + Bytes(t[..i])
  {
    assert (s + t)[..|s| + i] == s + t[..i];
    BytesConcat(s, t[..i]);
  }

  lemma PrefixInBytes(s: string, t: string, i: nat)
    requires i <= |s|
    ensures Bytes((s + t)[..i]) == Bytes(s[..i])
  {
    assert (s + t)[..i] == s[..i];
  }

  // ----- Character boundaries

  /** `text.is_char_boundary(index)` */
  predicate IsCharBoundary(s: string, index: nat) {
    exists i :: 0 <= i <= |s| && Bytes(s[..i]) == index
  }

  /** Characters of the longest prefix within `index` bytes. */
  function FloorChars(s: string, index: nat): (i: nat)
    ensures i <= |s| && Bytes(s[..i]) <= index
    ensures i < |s| ==> index < Bytes(s[..i + 1])
  {
    assert s[..|s|] == s;
    if Bytes(s) <= index then |s| else
      var i := FloorChars(s[..|s| - 1], index);
      assert s[..|s| - 1][..i] == s[..i];
      assert i + 1 < |s| ==> s[..|s| - 1][..i + 1] == s[..i + 1];
      i
  }

  /** Characters of the shortest prefix of at least `index` bytes. */
  function CeilChars(s: string, index: nat): (i: nat)
    requires index <= Bytes(s)
    ensures i <= |s| && index <= Bytes(s[..i])
    ensures i > 0 ==> Bytes(s[..i - 1]) < index
  {
    assert s[..|s|] == s;
    if s == "" || Bytes(s[..|s| - 1]) < index then |s| else
      var i := CeilChars(s[..|s| - 1], index);
      assert s[..|s| - 1][..i] == s[..i];
      assert i > 0 ==> s[..|s| - 1][..i - 1] == s[..i - 1];
      i
  }

  lemma FloorIsUnique(s: string, index: nat, i: nat)
    requires i <= |s| && Bytes(s[..i]) <= index
    requires i < |s| ==> index < Bytes(s[..i + 1])
    ensures i == FloorChars(s, index)
  {
    var f := FloorChars(s, index);
    if i < f { PrefixBytes(s, i + 1, f); }
    if f < i { PrefixBytes(s, f + 1, i); }
  }

  lemma CeilIsUnique(s: string, index: nat, i: nat)
    requires index <= Bytes(s)
    requires i <= |s| && index <= Bytes(s[..i])
    requires i > 0 ==> Bytes(s[..i - 1]) < index
    ensures i == CeilChars(s, index)
  {
    var c := CeilChars(s, index);
    if i < c { PrefixBytes(s, i, c - 1); }
    if c < i { PrefixBytes(s, c, i - 1); }
  }

  /** `floor_char_boundary`: the last boundary at or before the byte `index`. */
  method FloorCharBoundary(text: string, index: nat) returns (end: nat)
    ensures end == Bytes(text[..FloorChars(text, index)])
    ensures end <= index && IsCharBoundary(text, end) && (index < end + 4 || end == Bytes(text))
  {
    end := index;
    var f := FloorChars(text, index);
    assert text[..|text|] == text;
    if f < |text| { assert text[..f + 1][..f] == text[..f]; }
    while !IsCharBoundary(text, end)
      invariant Bytes(text[..f]) <= end <= index
      decreases end
    {
      assert Bytes(text[..f]) != end;
      end := end - 1;
    }
    BoundaryBetween(text, f, end, index);
  }

  lemma BoundaryBetween(text: string, f: nat, end: nat, index: nat)
    requires f == FloorChars(text, index)
    requires Bytes(text[..f]) <= end <= index && IsCharBoundary(text, end)
    ensures end == Bytes(text[..f])
  {
    var i :| 0 <= i <= |text| && Bytes(text[..i]) == end;
    if i < f { PrefixBytes(text, i, f); }
    if f < i { PrefixBytes(text, f + 1, i); }
  }

  /** `ceil_char_boundary`: the first boundary at or after the byte `index`. */
  method CeilCharBoundary(text: string, index: nat) returns (start: nat)
    requires index <= Bytes(text)
    ensures start == Bytes(text[..CeilChars(text, index)])
    ensures index <= start && start < index + 4 && IsCharBoundary(text, start)
  {
    start := index;
    var c := CeilChars(text, index);
    if c > 0 { assert text[..c][..c - 1] == text[..c - 1]; }
    assert Bytes(text[..c]) < index + 4;
    while !IsCharBoundary(text, start)
      invariant index <= start <= Bytes(text[..c])
      decreases Bytes(text[..c]) - start
    {
      assert Bytes(text[..c]) != start;
      start := start + 1;
    }
    var i :| 0 <= i <= |text| && Bytes(text[..i]) == start;
    if i < c { PrefixBytes(text, i, c - 1); }
    if c < i { PrefixBytes(text, c, i); }
  }

  /** `normalize::bounded`: the longest prefix of whole characters within
      `limit` bytes. */
  function Bounded(text: string, limit: nat): (r: string)
    ensures r <= text && Bytes(r) <= limit
    ensures Bytes(text) <= limit ==> r == text
    ensures limit < Bytes(text) ==> limit < Bytes(r) + 4
  {
    var f := FloorChars(text, limit);
    assert text[..|text|] == text;
    assert f < |text| ==> text[..f + 1][..f] == text[..f];
    text[..f]
  }

  /** No longer prefix is within the limit. */
  lemma BoundedIsLongest(text: string, limit: nat, i: nat)
    requires |Bounded(text, limit)| < i <= |text|
    ensures limit < Bytes(text[..i])
  {
    hide Bytes;
    var f := FloorChars(text, limit);
    assert |Bounded(text, limit)| == f;
    PrefixBytes(text, f + 1, i);
  }

  // ----- White space

  /** `char::is_whitespace`: the Unicode property White_Space. */
  predicate IsWhite(c: char) {
    var u := c as int;
    9 <= u <= 13 || u == 0x20 || u == 0x85 || u == 0xA0 || u == 0x1680 || 0x2000 <= u <= 0x200A
    || u == 0x2028 || u == 0x2029 || u == 0x202F || u == 0x205F || u == 0x3000
  }

  predicate AllWhite(s: string) {
    forall i :: 0 <= i < |s| ==> IsWhite(s[i])
  }

  function TrimEnd(s: string): (t: string)
    ensures t <= s
    ensures t == "" || !IsWhite(t[|t| - 1])
  {
    if s == "" || !IsWhite(s[|s| - 1]) then s else TrimEnd(s[..|s| - 1])
  }

  function TrimStart(s: string): (t: string)
    ensures |t| <= |s|
    ensures t == "" || !IsWhite(t[0])
  {
    if s == "" || !IsWhite(s[0]) then s else TrimStart(s[1..])
  }

  lemma {:induction false} TrimEndSplits(s: string)
    ensures s == TrimEnd(s) + s[|TrimEnd(s)|..] && AllWhite(s[|TrimEnd(s)|..])
  {
    if s != "" && IsWhite(s[|s| - 1]) {
      TrimEndSplits(s[..|s| - 1]);
      var n := |TrimEnd(s)|;
      assert s[n..] == s[..|s| - 1][n..] + [s[|s| - 1]];
    }
  }

  lemma {:induction false} TrimStartSplits(s: string)
    ensures s == s[..|s| - |TrimStart(s)|] + TrimStart(s)
    ensures AllWhite(s[..|s| - |TrimStart(s)|])
  {
    if s != "" && IsWhite(s[0]) {
      TrimStartSplits(s[1..]);
    } else {
      assert s[..0] == "";
    }
  }

  function Trim(s: string): string {
    TrimStart(TrimEnd(s))
  }

  /** What `TrimEnd` yields is the only prefix of its kind. */
  lemma {:induction false} TrimEndIsUnique(s: string, t: string)
    requires t <= s && AllWhite(s[|t|..])
    requires t == "" || !IsWhite(t[|t| - 1])
    ensures TrimEnd(s) == t
  {
    if |t| < |s| {
      assert s[|t|..][|s| - 1 - |t|] == s[|s| - 1];
      assert s[..|s| - 1][|t|..] == s[|t|..][..|s| - 1 - |t|];
      TrimEndIsUnique(s[..|s| - 1], t);
    }
  }

  lemma {:induction false} TrimStartIsUnique(w: string, t: string)
    requires AllWhite(w) && (t == "" || !IsWhite(t[0]))
    ensures TrimStart(w + t) == t
  {
    if w == "" {
      assert w + t == t;
    } else {
      assert (w + t)[1..] == w[1..] + t;
      TrimStartIsUnique(w[1..], t);
    }
  }

  lemma {:induction false} TrimStartMore(s: string, more: string)
    ensures TrimStart(s) != "" ==> TrimStart(s + more) == TrimStart(s) + more
    ensures TrimStart(s) == "" ==> TrimStart(s + more) == TrimStart(more)
  {
    if s == "" {
      assert s + more == more;
    } else {
      assert (s + more)[0] == s[0] && (s + more)[1..] == s[1..] + more;
      if IsWhite(s[0]) { TrimStartMore(s[1..], more); }
    }
  }

  lemma {:induction false} TrimEndMore(s: string, more: string)
    ensures TrimEnd(more) != "" ==> TrimEnd(s + more) == s + TrimEnd(more)
    ensures TrimEnd(more) == "" ==> TrimEnd(s + more) == TrimEnd(s)
  {
    if more == "" {
      assert s + more == s;
    } else {
      assert (s + more)[|s + more| - 1] == more[|more| - 1] && (s + more)[..|s + more| - 1] == s + more[..|more| - 1];
      if IsWhite(more[|more| - 1]) { TrimEndMore(s, more[..|more| - 1]); }
    }
  }

  lemma AllWhiteTrims(s: string)
    ensures TrimEnd(s) == "" <==> AllWhite(s)
    ensures TrimStart(s) == "" <==> AllWhite(s)
    ensures Trim(s) == "" <==> AllWhite(s)
  {
    TrimEndSplits(s);
    TrimStartSplits(s);
    TrimStartSplits(TrimEnd(s));
    var e, t := TrimEnd(s), TrimStart(s);
    if e != "" { assert s[|e| - 1] == e[|e| - 1]; }
    if t != "" { assert s[|s| - |t|] == t[0]; }
  }

  // ----- Search

  /** `pattern` occurs in `s` at `i`. */
  predicate At(s: string, pattern: string, i: nat) {
    i + |pattern| <= |s| && s[i..i + |pattern|] == pattern
  }

  predicate Contains(s: string, pattern: string) {
    exists i :: 0 <= i <= |s| && At(s, pattern, i)
  }

  /** The first occurrence of `pattern` at or after `from`. */
  function FindFrom(s: string, pattern: string, from: nat): (r: Option<nat>)
    requires from <= |s|
    ensures r.Some? ==> from <= r.value <= |s| && At(s, pattern, r.value)
                        && forall j :: from <= j < r.value ==> !At(s, pattern, j)
    ensures r.None? ==> forall j :: from <= j ==> !At(s, pattern, j)
    decreases |s| - from
  {
    if |s| < from + |pattern| then None
    else if At(s, pattern, from) then Some(from)
    else FindFrom(s, pattern, from + 1)
  }

  /** `text.split_once(pattern)` splits at this place. */
  function Find(s: string, pattern: string): (r: Option<nat>)
    ensures r.Some? ==> r.value <= |s| && At(s, pattern, r.value)
                        && forall j :: 0 <= j < r.value ==> !At(s, pattern, j)
    ensures r.None? <==> !Contains(s, pattern)
  {
    FindFrom(s, pattern, 0)
  }

  lemma FirstIsUnique(s: string, pattern: string, i: nat)
    requires At(s, pattern, i)
    requires forall j :: 0 <= j < i ==> !At(s, pattern, j)
    ensures Find(s, pattern) == Some(i)
  {
  }

  /** No proper suffix of `pattern` begins it: its first character is nowhere
      else in it, so no two occurrences of it overlap. */
  predicate Unbordered(pattern: string) {
    pattern != "" && forall i :: 0 < i < |pattern| ==> pattern[i] != pattern[0]
  }

  lemma NoOverlap(s: string, pattern: string, i: nat, j: nat)
    requires Unbordered(pattern)
    requires At(s, pattern, i) && At(s, pattern, j) && i < j
    ensures i + |pattern| <= j
  {
    assert s[j] == s[j..j + |pattern|][0];
    assert forall m :: i <= m < i + |pattern| ==> s[m] == s[i..i + |pattern|][m - i];
  }

  /** Starts of `text.match_indices(pattern)` from `from`: leftmost first, each
      match after the end of the one before it. */
  function MatchIndicesFrom(s: string, pattern: string, from: nat): (m: seq<nat>)
    requires pattern != "" && from <= |s|
    ensures forall i :: i in m ==> from <= i && At(s, pattern, i)
    decreases |s| - from
  {
    match FindFrom(s, pattern, from)
    case None => []
    case Some(i) => [i] + MatchIndicesFrom(s, pattern, i + |pattern|)
  }

  function MatchIndices(s: string, pattern: string): (m: seq<nat>)
    requires pattern != ""
    ensures forall i :: i in m ==> At(s, pattern, i)
  {
    MatchIndicesFrom(s, pattern, 0)
  }

  predicate Increasing(s: seq<nat>) {
    forall i, j :: 0 <= i < j < |s| ==> s[i] < s[j]
  }

  lemma {:induction false} MatchIndicesIncrease(s: string, pattern: string, from: nat)
    requires pattern != "" && from <= |s|
    ensures Increasing(MatchIndicesFrom(s, pattern, from))
    decreases |s| - from
  {
    hide FindFrom, At;
    var first := FindFrom(s, pattern, from);
    if first.Some? {
      var next := first.value + |pattern|;
      MatchFits(s, pattern, first.value);
      MatchIndicesIncrease(s, pattern, next);
      IncreasingAfter(first.value, MatchIndicesFrom(s, pattern, next), next);
    }
  }

  lemma MatchFits(s: string, pattern: string, i: nat)
    requires At(s, pattern, i)
    ensures i + |pattern| <= |s|
  {
  }

  lemma {:induction false} MatchIsFound(s: string, pattern: string, from: nat, i: nat)
    requires Unbordered(pattern) && from <= i <= |s| && At(s, pattern, i)
    ensures i in MatchIndicesFrom(s, pattern, from)
    decreases |s| - from
  {
    hide FindFrom, At;
    var first := FindFrom(s, pattern, from);
    MatchFits(s, pattern, first.value);
    if first.value < i {
      NoOverlap(s, pattern, first.value, i);
      MatchIsFound(s, pattern, first.value + |pattern|, i);
    }
  }

  /** For a pattern that cannot overlap itself, `match_indices` finds every
      occurrence, in order. */
  lemma MatchIndicesFindAll(s: string, pattern: string)
    requires Unbordered(pattern)
    ensures Increasing(MatchIndices(s, pattern))
    ensures forall i: nat :: At(s, pattern, i) ==> i in MatchIndices(s, pattern)
  {
    hide MatchIndicesFrom, At;
    MatchIndicesIncrease(s, pattern, 0);
    forall i: nat | At(s, pattern, i) ensures i in MatchIndices(s, pattern) {
      MatchFits(s, pattern, i);
      MatchIsFound(s, pattern, 0, i);
    }
  }

  lemma IncreasingAfter(first: nat, rest: seq<nat>, next: nat)
    requires Increasing(rest) && first < next && forall i :: i in rest ==> next <= i
    ensures Increasing([first] + rest)
  {
    assert forall k :: 0 <= k < |rest| ==> rest[k] in rest;
  }

  // ----- Chunks

  /** The text that arrives as `chunks`. */
  /** `text.encode_utf16().count()` */
  function Utf16(s: string): nat {
    if s == "" then 0 else Utf16(s[..|s| - 1]) + (if s[|s| - 1] as int < 0x10000 then 1 else 2)
  }

  lemma {:induction false} Utf16Concat(a: string, b: string)
    ensures Utf16(a + b) == Utf16(a) + Utf16(b)
  {
    if b == "" {
      assert a + b == a;
    } else {
      assert (a + b)[..|a + b| - 1] == a + b[..|b| - 1];
      Utf16Concat(a, b[..|b| - 1]);
    }
  }

  function Joined(chunks: seq<string>): string {
    if chunks == [] then "" else Joined(chunks[..|chunks| - 1]) + chunks[|chunks| - 1]
  }
}
