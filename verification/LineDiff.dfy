/** The shortest line diff of `changes.rs`: Myers' greedy algorithm over one
    reused array, and the line counts taken from it. */
module LineDiff {
  import opened Text

  type Line = string

  function Min(x: int, y: int): int {
    if x <= y then x else y
  }

  function Max(x: int, y: int): int {
    if x <= y then y else x
  }

  // ----- What is computed: edit scripts and common lines

  datatype Edit = Keep | Delete | Insert

  /** The script `s` turns `a` into `b`, its last edit at their ends. */
  ghost predicate Turns(s: seq<Edit>, a: seq<Line>, b: seq<Line>) {
    if s == [] then a == [] && b == []
    else
      var rest := s[..|s| - 1];
      match s[|s| - 1]
      case Keep => a != [] && b != [] && a[|a| - 1] == b[|b| - 1] && Turns(rest, a[..|a| - 1], b[..|b| - 1])
      case Delete => a != [] && Turns(rest, a[..|a| - 1], b)
      case Insert => b != [] && Turns(rest, a, b[..|b| - 1])
  }

  /** Lines a script deletes and inserts. */
  ghost function Cost(s: seq<Edit>): nat {
    if s == [] then 0 else Cost(s[..|s| - 1]) + (if s[|s| - 1] == Keep then 0 else 1)
  }

  ghost predicate IsShortestEdit(a: seq<Line>, b: seq<Line>, d: nat) {
    && (exists s :: Turns(s, a, b) && Cost(s) == d)
    && (forall s :: Turns(s, a, b) ==> d <= Cost(s))
  }

  /** `places` are the places of the lines `c` in `a`, in order. */
  ghost predicate Embeds(places: seq<nat>, c: seq<Line>, a: seq<Line>) {
    && |places| == |c|
    && (forall i :: 0 <= i < |c| ==> places[i] < |a| && a[places[i]] == c[i])
    && (forall i, j :: 0 <= i < j < |c| ==> places[i] < places[j])
  }

  ghost predicate IsSubsequence(c: seq<Line>, a: seq<Line>) {
    exists places :: Embeds(places, c, a)
  }

  ghost predicate IsCommon(c: seq<Line>, a: seq<Line>, b: seq<Line>) {
    IsSubsequence(c, a) && IsSubsequence(c, b)
  }

  /** `l` is the length of a longest common subsequence of `a` and `b`. */
  ghost predicate IsLcsLength(a: seq<Line>, b: seq<Line>, l: nat) {
    && (exists c :: IsCommon(c, a, b) && |c| == l)
    && (forall c :: IsCommon(c, a, b) ==> |c| <= l)
  }

  // ----- Distance on the unbounded grid

  /** A diagonal move leaves `(x, y)`; none does outside the texts. */
  predicate Matches(a: seq<Line>, b: seq<Line>, x: nat, y: nat) {
    x < |a| && y < |b| && a[x] == b[y]
  }

  /** Fewest edits from `(0, 0)` to `(x, y)`, also outside the texts. */
  ghost function Dist(a: seq<Line>, b: seq<Line>, x: nat, y: nat): (d: nat)
    ensures x - y <= d <= x + y && y - x <= d
    decreases x + y
  {
    if x == 0 then y
    else if y == 0 then x
    else if Matches(a, b, x - 1, y - 1) then Dist(a, b, x - 1, y - 1)
    else
      var left, up := Dist(a, b, x - 1, y), Dist(a, b, x, y - 1);
      1 + if left <= up then left else up
  }

  /** Lines a cheapest path to `(x, y)` keeps. */
  ghost function Kept(a: seq<Line>, b: seq<Line>, x: nat, y: nat): nat
    decreases x + y
  {
    if x == 0 || y == 0 then 0
    else if Matches(a, b, x - 1, y - 1) then Kept(a, b, x - 1, y - 1) + 1
    else if Dist(a, b, x - 1, y) <= Dist(a, b, x, y - 1) then Kept(a, b, x - 1, y)
    else Kept(a, b, x, y - 1)
  }

  lemma {:induction false} DistAndKept(a: seq<Line>, b: seq<Line>, x: nat, y: nat)
    ensures Dist(a, b, x, y) + 2 * Kept(a, b, x, y) == x + y
    decreases x + y
  {
    hide Matches;
    if x == 0 || y == 0 {
    } else if Matches(a, b, x - 1, y - 1) {
      DistAndKept(a, b, x - 1, y - 1);
    } else if Dist(a, b, x - 1, y) <= Dist(a, b, x, y - 1) {
      DistAndKept(a, b, x - 1, y);
    } else {
      DistAndKept(a, b, x, y - 1);
    }
  }

  /** One step right or down changes the distance by exactly one. */
  lemma {:induction false} Neighbours(a: seq<Line>, b: seq<Line>, x: nat, y: nat)
    ensures Dist(a, b, x + 1, y) == Dist(a, b, x, y) + 1 || Dist(a, b, x + 1, y) == Dist(a, b, x, y) - 1
    ensures Dist(a, b, x, y + 1) == Dist(a, b, x, y) + 1 || Dist(a, b, x, y + 1) == Dist(a, b, x, y) - 1
    decreases x + y
  {
    hide Dist, Matches;
    DistStep(a, b, x + 1, y);
    DistStep(a, b, x, y + 1);
    DistStep(a, b, x, y);
    if y > 0 { Neighbours(a, b, x, y - 1); }
    if x > 0 { Neighbours(a, b, x - 1, y); }
  }

  lemma DistStep(a: seq<Line>, b: seq<Line>, x: nat, y: nat)
    ensures x == 0 ==> Dist(a, b, x, y) == y
    ensures y == 0 ==> Dist(a, b, x, y) == x
    ensures x > 0 && y > 0 ==>
              Dist(a, b, x, y) == if Matches(a, b, x - 1, y - 1) then Dist(a, b, x - 1, y - 1)
                                  else 1 + Min(Dist(a, b, x - 1, y), Dist(a, b, x, y - 1))
  {
  }

  /** Along a diagonal the distance never falls, and stays over a match. */
  lemma Diagonal(a: seq<Line>, b: seq<Line>, x: nat, y: nat)
    ensures Dist(a, b, x, y) <= Dist(a, b, x + 1, y + 1)
    ensures Matches(a, b, x, y) ==> Dist(a, b, x + 1, y + 1) == Dist(a, b, x, y)
  {
    Neighbours(a, b, x, y);
  }

  lemma {:induction false} AlongDiagonal(a: seq<Line>, b: seq<Line>, x: nat, y: nat, steps: nat)
    ensures Dist(a, b, x, y) <= Dist(a, b, x + steps, y + steps)
  {
    if steps > 0 {
      AlongDiagonal(a, b, x, y, steps - 1);
      Diagonal(a, b, x + steps - 1, y + steps - 1);
    }
  }

  lemma OutsideStep(a: seq<Line>, b: seq<Line>, x: nat, y: nat)
    requires |a| < x || |b| < y
    ensures x == 0 ==> Dist(a, b, x, y) == y
    ensures y == 0 ==> Dist(a, b, x, y) == x
    ensures x > 0 && y > 0 ==> Dist(a, b, x, y) == 1 + Min(Dist(a, b, x - 1, y), Dist(a, b, x, y - 1))
  {
  }

  /** Beyond the end of a text every further line costs one edit. */
  lemma {:induction false} BeyondRight(a: seq<Line>, b: seq<Line>, x: nat, y: nat)
    requires |a| <= x
    ensures Dist(a, b, x, y) == Dist(a, b, |a|, y) + (x - |a|)
    decreases x + y
  {
    hide Dist, Matches;
    if x > |a| {
      OutsideStep(a, b, x, y);
      BeyondRight(a, b, x - 1, y);
      if y > 0 {
        BeyondRight(a, b, x, y - 1);
        Neighbours(a, b, |a|, y - 1);
      }
    }
  }

  lemma {:induction false} BeyondBelow(a: seq<Line>, b: seq<Line>, x: nat, y: nat)
    requires |b| <= y
    ensures Dist(a, b, x, y) == Dist(a, b, x, |b|) + (y - |b|)
    decreases x + y
  {
    hide Dist, Matches;
    if y > |b| {
      OutsideStep(a, b, x, y);
      BeyondBelow(a, b, x, y - 1);
      if x > 0 {
        BeyondBelow(a, b, x - 1, y);
        Neighbours(a, b, x - 1, |b|);
      }
    }
  }

  /** Past the corner the distance counts the way back to it, so a path that
      ends there off the corner's diagonal costs more than the corner does. */
  lemma PastCorner(a: seq<Line>, b: seq<Line>, x: nat, y: nat)
    requires |a| <= x && |b| <= y
    ensures Dist(a, b, x, y) == Dist(a, b, |a|, |b|) + (x - |a|) + (y - |b|)
  {
    BeyondRight(a, b, x, y);
    BeyondBelow(a, b, |a|, y);
  }

  // ----- Distance and scripts

  lemma {:induction false} ScriptsCostTheDistance(s: seq<Edit>, a: seq<Line>, b: seq<Line>, x: nat, y: nat)
    requires x <= |a| && y <= |b| && Turns(s, a[..x], b[..y])
    ensures Dist(a, b, x, y) <= Cost(s)
  {
    if s != [] {
      var rest := s[..|s| - 1];
      assert x > 0 ==> a[..x][..x - 1] == a[..x - 1];
      assert y > 0 ==> b[..y][..y - 1] == b[..y - 1];
      match s[|s| - 1]
      case Keep =>
        ScriptsCostTheDistance(rest, a, b, x - 1, y - 1);
        Diagonal(a, b, x - 1, y - 1);
      case Delete =>
        ScriptsCostTheDistance(rest, a, b, x - 1, y);
        Neighbours(a, b, x - 1, y);
      case Insert =>
        ScriptsCostTheDistance(rest, a, b, x, y - 1);
        Neighbours(a, b, x, y - 1);
    }
  }

  ghost function BestScript(a: seq<Line>, b: seq<Line>, x: nat, y: nat): (s: seq<Edit>)
    requires x <= |a| && y <= |b|
    ensures Turns(s, a[..x], b[..y]) && Cost(s) == Dist(a, b, x, y)
    decreases x + y
  {
    assert x > 0 ==> a[..x][..x - 1] == a[..x - 1];
    assert y > 0 ==> b[..y][..y - 1] == b[..y - 1];
    if x == 0 && y == 0 then []
    else if x > 0 && y > 0 && Matches(a, b, x - 1, y - 1) then
      Extended(BestScript(a, b, x - 1, y - 1), Keep)
    else if y == 0 || (x > 0 && Dist(a, b, x - 1, y) <= Dist(a, b, x, y - 1)) then
      Extended(BestScript(a, b, x - 1, y), Delete)
    else
      Extended(BestScript(a, b, x, y - 1), Insert)
  }

  ghost function Extended(s: seq<Edit>, edit: Edit): (t: seq<Edit>)
    ensures |t| == |s| + 1 && t[|s|] == edit && t[..|s|] == s
  {
    s + [edit]
  }

  /** Length of the shortest script. */
  ghost function ShortestEdit(a: seq<Line>, b: seq<Line>): (d: nat)
    ensures |a| - |b| <= d <= |a| + |b| && |b| - |a| <= d
  {
    Dist(a, b, |a|, |b|)
  }

  lemma DistIsShortestEdit(a: seq<Line>, b: seq<Line>)
    ensures IsShortestEdit(a, b, ShortestEdit(a, b))
  {
    assert a[..|a|] == a && b[..|b|] == b;
    var s := BestScript(a, b, |a|, |b|);
    assert Turns(s, a, b) && Cost(s) == Dist(a, b, |a|, |b|);
    forall t | Turns(t, a, b) ensures Dist(a, b, |a|, |b|) <= Cost(t) {
      ScriptsCostTheDistance(t, a, b, |a|, |b|);
    }
  }

  lemma ShortestEditIsUnique(a: seq<Line>, b: seq<Line>, d: nat)
    requires IsShortestEdit(a, b, d)
    ensures d == ShortestEdit(a, b)
  {
    DistIsShortestEdit(a, b);
  }

  lemma NotWithin(a: seq<Line>, b: seq<Line>, limit: nat)
    requires forall s :: Turns(s, a, b) ==> limit < Cost(s)
    ensures limit < ShortestEdit(a, b)
  {
    DistIsShortestEdit(a, b);
  }

  // ----- Distance and common lines

  lemma {:induction false} CommonLinesBound(a: seq<Line>, b: seq<Line>, x: nat, y: nat,
                                            c: seq<Line>, p: seq<nat>, q: seq<nat>)
    requires x <= |a| && y <= |b| && Embeds(p, c, a[..x]) && Embeds(q, c, b[..y])
    ensures 2 * |c| + Dist(a, b, x, y) <= x + y
    decreases x + y
  {
    if c != [] {
      var last := |c| - 1;
      assert a[..x][p[last]] == c[last] && b[..y][q[last]] == c[last];
      if Matches(a, b, x - 1, y - 1) {
        CommonLinesBound(a, b, x - 1, y - 1, c[..last], p[..last], q[..last]);
      } else if p[last] < x - 1 {
        CommonLinesBound(a, b, x - 1, y, c, p, q);
        Neighbours(a, b, x - 1, y);
      } else {
        CommonLinesBound(a, b, x, y - 1, c, p, q);
        Neighbours(a, b, x, y - 1);
      }
    }
  }

  lemma EmbedsKept(places: seq<nat>, c: seq<Line>, a: seq<Line>, x: nat)
    requires x < |a| && Embeds(places, c, a[..x])
    ensures Embeds(places + [x], c + [a[x]], a[..x + 1])
  {
  }

  lemma EmbedsFurther(places: seq<nat>, c: seq<Line>, a: seq<Line>, x: nat)
    requires x < |a| && Embeds(places, c, a[..x])
    ensures Embeds(places, c, a[..x + 1])
  {
  }

  lemma NothingEmbeds(a: seq<Line>)
    ensures Embeds([], [], a)
  {
  }

  /** Common lines as many as a cheapest path keeps. */
  lemma {:induction false} CommonLinesExist(a: seq<Line>, b: seq<Line>, x: nat, y: nat)
      returns (c: seq<Line>, p: seq<nat>, q: seq<nat>)
    requires x <= |a| && y <= |b|
    ensures Embeds(p, c, a[..x]) && Embeds(q, c, b[..y])
    ensures |c| == Kept(a, b, x, y)
    decreases x + y
  {
    hide Embeds, Dist;
    if x == 0 || y == 0 {
      c, p, q := [], [], [];
      NothingEmbeds(a[..x]);
      NothingEmbeds(b[..y]);
    } else if Matches(a, b, x - 1, y - 1) {
      c, p, q := CommonLinesExist(a, b, x - 1, y - 1);
      EmbedsKept(p, c, a, x - 1);
      EmbedsKept(q, c, b, y - 1);
      c, p, q := c + [a[x - 1]], p + [x - 1], q + [y - 1];
    } else if Dist(a, b, x - 1, y) <= Dist(a, b, x, y - 1) {
      c, p, q := CommonLinesExist(a, b, x - 1, y);
      EmbedsFurther(p, c, a, x - 1);
    } else {
      c, p, q := CommonLinesExist(a, b, x, y - 1);
      EmbedsFurther(q, c, b, y - 1);
    }
  }

  lemma DistGivesLcs(a: seq<Line>, b: seq<Line>, l: nat)
    requires 2 * l + Dist(a, b, |a|, |b|) == |a| + |b|
    ensures IsLcsLength(a, b, l)
  {
    DistAndKept(a, b, |a|, |b|);
    assert a[..|a|] == a && b[..|b|] == b;
    var c, p, q := CommonLinesExist(a, b, |a|, |b|);
    assert IsCommon(c, a, b) && |c| == l;
    forall c | IsCommon(c, a, b) ensures |c| <= l {
      var p :| Embeds(p, c, a);
      var q :| Embeds(q, c, b);
      CommonLinesBound(a, b, |a|, |b|, c, p, q);
    }
  }

  // ----- Furthest reaching points

  /** The distance of the point at `x` on diagonal `k`. */
  ghost function DistOn(a: seq<Line>, b: seq<Line>, k: int, x: int): nat
    requires 0 <= x && 0 <= x - k
  {
    Dist(a, b, x, x - k)
  }

  /** No point of diagonal `k` from `from` on is within `d` edits. */
  ghost predicate NoneFrom(a: seq<Line>, b: seq<Line>, d: int, k: int, from: int) {
    forall x :: from <= x && 0 <= x && 0 <= x - k ==> d < DistOn(a, b, k, x)
  }

  /** `(x, x - k)` is the furthest point of diagonal `k` within `d` edits. */
  ghost predicate IsFurthest(a: seq<Line>, b: seq<Line>, d: int, k: int, x: int) {
    0 <= x && 0 <= x - k && DistOn(a, b, k, x) <= d && NoneFrom(a, b, d, k, x + 1)
  }

  /** Where a snake on diagonal `k` may start with `d` edits: within reach,
      and past what `d - 1` edits reach on both diagonals beside it. */
  ghost predicate IsStart(a: seq<Line>, b: seq<Line>, d: nat, k: int, x: int) {
    && 0 <= x && 0 <= x - k
    && DistOn(a, b, k, x) <= d
    && NoneFrom(a, b, d - 1, k - 1, x)
    && NoneFrom(a, b, d - 1, k + 1, x + 1)
  }

  /** Diagonals beyond `d` are out of reach of `d` edits. */
  lemma OutOfReach(a: seq<Line>, b: seq<Line>, d: int, k: int)
    requires k < -d || d < k
    ensures NoneFrom(a, b, d, k, 0)
  {
  }

  lemma SnakeEnd(a: seq<Line>, b: seq<Line>, d: nat, k: int, start: int, x: int)
    requires IsStart(a, b, d, k, start) && start <= x
    requires DistOn(a, b, k, x) <= d && !Matches(a, b, x, x - k)
    ensures IsFurthest(a, b, d, k, x)
  {
    hide Dist, Matches;
    DistStep(a, b, x + 1, x + 1 - k);
    assert d - 1 < DistOn(a, b, k - 1, x);
    assert d - 1 < DistOn(a, b, k + 1, x + 1);
    forall x' | x < x' ensures d < DistOn(a, b, k, x') {
      AlongDiagonal(a, b, x + 1, x + 1 - k, x' - x - 1);
    }
  }

  lemma StepDown(a: seq<Line>, b: seq<Line>, d: int, k: int, down: int)
    requires 0 < d && IsFurthest(a, b, d - 1, k + 1, down)
    ensures 0 <= down - k && DistOn(a, b, k, down) <= d
  {
    Neighbours(a, b, down, down - (k + 1));
  }

  lemma StepRight(a: seq<Line>, b: seq<Line>, d: int, k: int, right: int)
    requires 0 < d && IsFurthest(a, b, d - 1, k - 1, right)
    ensures 0 <= right + 1 - k && DistOn(a, b, k, right + 1) <= d
  {
    Neighbours(a, b, right, right - (k - 1));
  }

  lemma DownIsFurther(a: seq<Line>, b: seq<Line>, d: int, k: int, down: int, before: int)
    requires IsFurthest(a, b, d - 2, k, before) && IsFurthest(a, b, d - 1, k + 1, down)
    ensures before < down
  {
    Neighbours(a, b, before, before - k);
    assert DistOn(a, b, k + 1, before + 1) <= d - 1;
  }

  /** The step down from diagonal `k + 1` or right from `k - 1`, whichever
      gets further, is where the snake starts. `down` and `right` hold the
      furthest points there. */
  lemma SnakeStart(a: seq<Line>, b: seq<Line>, d: int, k: int, down: int, right: int)
    requires 0 <= d && -d <= k <= d
    requires k < d ==> IsFurthest(a, b, d - 1, k + 1, down)
    requires -d < k ==> IsFurthest(a, b, d - 1, k - 1, right)
    requires d == 0 ==> down == 0
    ensures IsStart(a, b, d, k, if k == -d || (k != d && right < down) then down else right + 1)
  {
    if k == -d { OutOfReach(a, b, d - 1, k - 1); } else { StepRight(a, b, d, k, right); }
    if k == d { OutOfReach(a, b, d - 1, k + 1); } else { StepDown(a, b, d, k, down); }
  }

  // ----- Work

  lemma MinIsLess(x: int, y: int)
    ensures Min(x, y) <= x && Min(x, y) <= y && (Min(x, y) == x || Min(x, y) == y)
  {
  }

  /** Cells of diagonal `k` inside the texts before `x`. */
  function CellsBefore(n: nat, m: nat, k: int, x: int): nat {
    Max(0, Min(x, Min(n, m + k)) - Max(0, k))
  }

  ghost function Sum(s: seq<nat>): nat {
    if s == [] then 0 else Sum(s[..|s| - 1]) + s[|s| - 1]
  }

  lemma {:induction false} SumUpdate(s: seq<nat>, i: nat)
    requires i < |s|
    ensures Sum(s[i := s[i] + 1]) == Sum(s) + 1
  {
    var t := s[i := s[i] + 1];
    if i == |s| - 1 {
      assert t[..|s| - 1] == s[..|s| - 1];
    } else {
      assert t[..|s| - 1] == s[..|s| - 1][i := s[i] + 1];
      SumUpdate(s[..|s| - 1], i);
    }
  }

  lemma {:induction false} SumAtMost(s: seq<nat>, bound: nat)
    requires forall i :: 0 <= i < |s| ==> s[i] <= bound
    ensures Sum(s) <= |s| * bound
  {
    if s != [] { SumAtMost(s[..|s| - 1], bound); }
  }

  lemma {:induction false} SumZero(s: seq<nat>)
    requires forall i :: 0 <= i < |s| ==> s[i] == 0
    ensures Sum(s) == 0
  {
    if s != [] { SumZero(s[..|s| - 1]); }
  }

  // ----- The algorithm

  /** Round `d` reaches diagonal `k`. */
  predicate OnRound(d: int, k: int) {
    -d <= k <= d && (d + k) % 2 == 0
  }

  /** The diagonals of round `d` from `from` up to `to` hold their furthest
      points within `d` edits. */
  ghost predicate Reached(a: seq<Line>, b: seq<Line>, f: seq<int>, offset: int, d: int, from: int, to: int)
    requires 0 <= d <= offset && |f| == 2 * offset + 1
  {
    forall k :: OnRound(d, k) && from <= k < to ==> IsFurthest(a, b, d, k, f[k + offset])
  }

  /** A round that did not end at the corner shows it to be further away. */
  lemma NotInRound(a: seq<Line>, b: seq<Line>, d: nat)
    requires d <= Dist(a, b, |a|, |b|)
    requires OnRound(d, |a| - |b|) ==> d < Dist(a, b, |a|, |b|)
    ensures d < Dist(a, b, |a|, |b|)
  {
    hide Dist, Kept, Matches;
    DistAndKept(a, b, |a|, |b|);
  }

  /** Diagonals the rounds so far did not reach still hold zero: all beyond
      `d`, and of those at `d` the ones from `k` on. */
  ghost predicate Untouched(f: seq<int>, offset: int, d: int, k: int) {
    forall i :: 0 <= i < |f| && (i - offset < -d || d < i - offset || (k <= i - offset && (i - offset == d || i - offset == -d)))
                ==> f[i] == 0
  }

  /** No diagonal matched more cells than it has before its furthest point. */
  ghost predicate Counted(hits: seq<nat>, f: seq<int>, n: nat, m: nat, offset: int)
    requires |f| == |hits| + 2
  {
    forall i :: 0 <= i < |hits| ==> hits[i] <= CellsBefore(n, m, i + 1 - offset, f[i + 1])
  }

  lemma WorkAtMost(hits: seq<nat>, f: seq<int>, n: nat, m: nat, max: nat)
    requires |hits| == 2 * max + 1 && |f| == |hits| + 2 && Counted(hits, f, n, m, max + 1)
    ensures Sum(hits) <= (2 * max + 1) * Min(n, m)
  {
    forall i | 0 <= i < |hits| ensures hits[i] <= Min(n, m) {
    }
    SumAtMost(hits, Min(n, m));
  }

  /** The array within round `d`, its diagonals below `k` done. */
  ghost predicate Round(a: seq<Line>, b: seq<Line>, f: seq<int>, hits: seq<nat>, offset: int, d: int, k: int) {
    && 0 <= d < offset && OnRound(d + 2, k) && -d <= k
    && |f| == 2 * offset + 1 && |hits| == 2 * offset - 1
    && (d > 0 ==> Reached(a, b, f, offset, d - 1, -offset, offset))
    && (d > 1 ==> Reached(a, b, f, offset, d - 2, k, offset))
    && Reached(a, b, f, offset, d, -offset, k)
    && Untouched(f, offset, d, k)
    && Counted(hits, f, |a|, |b|, offset)
    && d <= Dist(a, b, |a|, |b|)
    && (|a| - |b| < k && OnRound(d, |a| - |b|) ==> d < Dist(a, b, |a|, |b|))
  }

  lemma RoundStart(a: seq<Line>, b: seq<Line>, f: seq<int>, hits: seq<nat>, offset: int, d: int, k: int, x: int)
    requires Round(a, b, f, hits, offset, d, k) && -d <= k <= d < offset && |f| == 2 * offset + 1
    requires x == if k == -d || (k != d && f[k + offset - 1] < f[k + offset + 1])
                  then f[k + offset + 1] else f[k + offset - 1] + 1
    ensures IsStart(a, b, d, k, x)
    ensures |f| == |hits| + 2 && Counted(hits, f[k + offset := x], |a|, |b|, offset)
  {
    hide Dist, DistOn, NoneFrom, IsFurthest, Untouched, CellsBefore;
    ghost var index := k + offset;
    assert k < d ==> OnRound(d - 1, k + 1);
    assert -d < k ==> OnRound(d - 1, k - 1);
    UntouchedZero(f, offset, d, k);
    SnakeStart(a, b, d, k, f[index + 1], f[index - 1]);
    if OnRound(d - 2, k) { DownIsFurther(a, b, d, k, f[index + 1], f[index]); }
    StartAtLeastZero(a, b, d, k, x);
    CountedFrom(hits, f, |a|, |b|, offset, index, x);
  }

  lemma UntouchedZero(f: seq<int>, offset: int, d: int, k: int)
    requires 0 <= d < offset && OnRound(d + 2, k) && -d <= k <= d && |f| == 2 * offset + 1
    requires Untouched(f, offset, d, k)
    ensures d == 0 ==> f[k + offset + 1] == 0
    ensures !OnRound(d - 2, k) ==> f[k + offset] == 0
  {
  }

  lemma StartAtLeastZero(a: seq<Line>, b: seq<Line>, d: nat, k: int, x: int)
    requires IsStart(a, b, d, k, x)
    ensures 0 <= x && 0 <= x - k && DistOn(a, b, k, x) <= d
  {
  }

  lemma RoundZero(a: seq<Line>, b: seq<Line>, f: seq<int>, hits: seq<nat>, offset: int)
    requires 0 < offset && |f| == 2 * offset + 1 && |hits| == 2 * offset - 1
    requires (forall i :: 0 <= i < |f| ==> f[i] == 0) && (forall i :: 0 <= i < |hits| ==> hits[i] == 0)
    ensures Round(a, b, f, hits, offset, 0, 0)
    ensures Sum(hits) == 0 && Counted(hits, f, |a|, |b|, offset)
  {
    SumZero(hits);
  }

  lemma SnakeStep(a: seq<Line>, b: seq<Line>, k: int, x: int)
    requires 0 <= x < |a| && 0 <= x - k < |b| && a[x] == b[x - k]
    ensures DistOn(a, b, k, x + 1) == DistOn(a, b, k, x)
  {
    Diagonal(a, b, x, x - k);
  }

  lemma NoMatch(a: seq<Line>, b: seq<Line>, x: nat, y: nat)
    requires !(x < |a| && y < |b| && a[x] == b[y])
    ensures !Matches(a, b, x, y)
  {
  }

  lemma CountedFrom(hits: seq<nat>, f: seq<int>, n: nat, m: nat, offset: int, index: nat, x: int)
    requires |f| == |hits| + 2 && Counted(hits, f, n, m, offset)
    requires index < |f| && f[index] <= x
    ensures Counted(hits, f[index := x], n, m, offset)
  {
  }

  lemma CountedMatch(hits: seq<nat>, f: seq<int>, n: nat, m: nat, offset: int, index: nat, x: int)
    requires |f| == |hits| + 2 && 1 <= index <= |hits| && Counted(hits, f[index := x], n, m, offset)
    requires 0 <= x < n && 0 <= x - (index - offset) < m
    ensures Counted(hits[index - 1 := hits[index - 1] + 1], f[index := x + 1], n, m, offset)
  {
  }

  lemma UntouchedStep(f: seq<int>, offset: int, d: int, k: int, x: int)
    requires 0 <= d < offset && OnRound(d, k) && |f| == 2 * offset + 1
    requires Untouched(f, offset, d, k)
    ensures Untouched(f[k + offset := x], offset, d, k + 2)
  {
  }

  lemma ReachedStep(a: seq<Line>, b: seq<Line>, f: seq<int>, offset: int, d: int, k: int, x: int)
    requires 0 <= d < offset && OnRound(d, k) && |f| == 2 * offset + 1
    requires IsFurthest(a, b, d, k, x) && Reached(a, b, f, offset, d, -offset, k)
    ensures Reached(a, b, f[k + offset := x], offset, d, -offset, k + 2)
  {
    hide IsFurthest;
    assert !OnRound(d, k + 1);
  }

  lemma ReachedElsewhere(a: seq<Line>, b: seq<Line>, f: seq<int>, offset: int, d: int, from: int, from': int, k: int, x: int)
    requires 0 <= d <= offset && |f| == 2 * offset + 1 && -offset <= k <= offset
    requires Reached(a, b, f, offset, d, from, offset) && from <= from' && (k < from' || !OnRound(d, k))
    ensures Reached(a, b, f[k + offset := x], offset, d, from', offset)
  {
    hide IsFurthest;
  }

  lemma RoundStep(a: seq<Line>, b: seq<Line>, f: seq<int>, hits: seq<nat>, hits': seq<nat>,
                  offset: int, d: int, k: int, x: int)
    requires Round(a, b, f, hits, offset, d, k) && k <= d
    requires IsFurthest(a, b, d, k, x) && (x < |a| || x - k < |b|)
    requires |hits'| == |hits| && Counted(hits', f[k + offset := x], |a|, |b|, offset)
    ensures Round(a, b, f[k + offset := x], hits', offset, d, k + 2)
  {
    hide IsFurthest, Reached, Untouched, Counted, Dist;
    if k == |a| - |b| { CornerBeyond(a, b, d, x); }
    ReachedStep(a, b, f, offset, d, k, x);
    UntouchedStep(f, offset, d, k, x);
    if d > 0 { ReachedElsewhere(a, b, f, offset, d - 1, -offset, -offset, k, x); }
    if d > 1 { ReachedElsewhere(a, b, f, offset, d - 2, k, k + 2, k, x); }
  }

  lemma CornerBeyond(a: seq<Line>, b: seq<Line>, d: nat, x: int)
    requires IsFurthest(a, b, d, |a| - |b|, x) && x < |a|
    ensures d < Dist(a, b, |a|, |b|)
  {
    assert DistOn(a, b, |a| - |b|, |a|) > d;
  }

  lemma RoundAtCorner(a: seq<Line>, b: seq<Line>, f: seq<int>, hits: seq<nat>, offset: int, d: int, k: int, x: int)
    requires |a| <= x && |b| <= x - k
    requires Round(a, b, f, hits, offset, d, k) && DistOn(a, b, k, x) <= d
    ensures IsShortestEdit(a, b, d)
  {
    PastCorner(a, b, x, x - k);
    DistIsShortestEdit(a, b);
  }

  lemma BeyondLimit(a: seq<Line>, b: seq<Line>, limit: nat, max: nat)
    requires max == Min(limit, |a| + |b|) && max < ShortestEdit(a, b)
    ensures forall s :: Turns(s, a, b) ==> limit < Cost(s)
  {
    forall s | Turns(s, a, b) ensures limit < Cost(s) {
      assert a[..|a|] == a && b[..|b|] == b;
      ScriptsCostTheDistance(s, a, b, |a|, |b|);
    }
  }

  lemma RoundEnd(a: seq<Line>, b: seq<Line>, f: seq<int>, hits: seq<nat>, offset: int, d: int, k: int)
    requires Round(a, b, f, hits, offset, d, k) && d < k
    ensures d < ShortestEdit(a, b)
    ensures d + 1 < offset ==> Round(a, b, f, hits, offset, d + 1, -(d + 1))
  {
    NotInRound(a, b, d);
  }

  /** The inner loop of `edit_distance`: follows matches along diagonal `k`
      from `start`, counting them. */
  method FollowSnake(a: seq<Line>, b: seq<Line>, k: int, start: int,
                     ghost d: nat, ghost f: seq<int>, ghost offset: int, ghost before: seq<nat>)
    returns (x: int, ghost hits: seq<nat>)
    requires |f| == |before| + 2 && 1 <= k + offset <= |before|
    requires IsStart(a, b, d, k, start)
    requires Counted(before, f[k + offset := start], |a|, |b|, offset)
    ensures start <= x && DistOn(a, b, k, x) <= d && IsFurthest(a, b, d, k, x)
    ensures |hits| == |before| && Counted(hits, f[k + offset := x], |a|, |b|, offset)
    ensures Sum(hits) == Sum(before) + (x - start)
  {
    hide *;
    StartAtLeastZero(a, b, d, k, start);
    x, hits := start, before;
    var y := start - k;
    while x < |a| && y < |b| && a[x] == b[y]
      invariant start <= x && y == x - k && 0 <= x && 0 <= y
      invariant DistOn(a, b, k, x) <= d
      invariant |hits| == |before| && Sum(hits) == Sum(before) + (x - start)
      invariant Counted(hits, f[k + offset := x], |a|, |b|, offset)
    {
      SnakeStep(a, b, k, x);
      SumUpdate(hits, k + offset - 1);
      CountedMatch(hits, f, |a|, |b|, offset, k + offset, x);
      hits := hits[k + offset - 1 := hits[k + offset - 1] + 1];
      x := x + 1;
      y := y + 1;
    }
    NoMatch(a, b, x, y);
    SnakeEnd(a, b, d, k, start, x);
  }

  /** `edit_distance`, with the number of matches its inner loop finds. */
  method EditDistance(a: seq<Line>, b: seq<Line>, limit: nat) returns (r: Option<nat>, ghost work: nat)
    ensures r.Some? ==> r.value <= limit && IsShortestEdit(a, b, r.value)
    ensures r.None? ==> forall s :: Turns(s, a, b) ==> limit < Cost(s)
    ensures work <= (2 * Min(limit, |a| + |b|) + 1) * Min(|a|, |b|)
  {
    hide *;
    var n, m := |a|, |b|;
    var max := Min(limit, n + m);
    MinIsLess(limit, n + m);
    var offset := max + 1;
    var furthest := new int[2 * max + 3](_ => 0);
    ghost var hits: seq<nat> := seq(2 * max + 1, _ => 0);
    RoundZero(a, b, furthest[..], hits, offset);
    work := 0;
    var d := 0;
    while d <= max
      invariant 0 <= d <= offset && furthest.Length == 2 * offset + 1
      invariant d <= max ==> Round(a, b, furthest[..], hits, offset, d, -d)
      invariant |hits| == 2 * max + 1 && work == Sum(hits) && Counted(hits, furthest[..], n, m, offset)
      invariant d <= ShortestEdit(a, b)
    {
      var k := -d;
      while k <= d
        invariant -d <= k <= d + 2 && furthest.Length == 2 * offset + 1
        invariant Round(a, b, furthest[..], hits, offset, d, k)
        invariant |hits| == 2 * max + 1 && work == Sum(hits) && Counted(hits, furthest[..], n, m, offset)
      {
        var index := k + offset;
        var x := if k == -d || (k != d && furthest[index - 1] < furthest[index + 1])
                 then furthest[index + 1] else furthest[index - 1] + 1;
        ghost var f, before := furthest[..], hits;
        RoundStart(a, b, f, hits, offset, d, k, x);
        x, hits := FollowSnake(a, b, k, x, d, f, offset, hits);
        work := Sum(hits);
        furthest[index] := x;
        assert furthest[..] == f[index := x];
        if x >= n && x - k >= m {
          RoundAtCorner(a, b, f, before, offset, d, k, x);
          WorkAtMost(hits, furthest[..], n, m, max);
          return Some(d), work;
        }
        RoundStep(a, b, f, before, hits, offset, d, k, x);
        k := k + 2;
      }
      RoundEnd(a, b, furthest[..], hits, offset, d, k);
      d := d + 1;
    }
    WorkAtMost(hits, furthest[..], n, m, max);
    r := None;
    BeyondLimit(a, b, limit, max);
  }

  // ----- Line counts

  const MAX_EDIT: nat := 10_000
  const MAX_WORK: nat := 20_000_000

  datatype LineChanges = LineChanges(added: nat, removed: nat)

  /** Lines both texts begin with. */
  function CommonHead(a: seq<Line>, b: seq<Line>): (h: nat)
    ensures h <= |a| && h <= |b|
  {
    if a == [] || b == [] || a[0] != b[0] then 0 else 1 + CommonHead(a[1..], b[1..])
  }

  lemma {:induction false} HeadIsCommon(a: seq<Line>, b: seq<Line>)
    ensures a[..CommonHead(a, b)] == b[..CommonHead(a, b)]
  {
    if a != [] && b != [] && a[0] == b[0] {
      HeadIsCommon(a[1..], b[1..]);
      var h := CommonHead(a[1..], b[1..]);
      assert a[..h + 1] == [a[0]] + a[1..][..h];
      assert b[..h + 1] == [b[0]] + b[1..][..h];
    }
  }

  /** Lines both texts end with. */
  function CommonTail(a: seq<Line>, b: seq<Line>): (t: nat)
    ensures t <= |a| && t <= |b|
  {
    if a == [] || b == [] || a[|a| - 1] != b[|b| - 1] then 0
    else 1 + CommonTail(a[..|a| - 1], b[..|b| - 1])
  }

  lemma {:induction false} TailIsCommon(a: seq<Line>, b: seq<Line>)
    ensures a[|a| - CommonTail(a, b)..] == b[|b| - CommonTail(a, b)..]
  {
    if a != [] && b != [] && a[|a| - 1] == b[|b| - 1] {
      var a', b' := a[..|a| - 1], b[..|b| - 1];
      TailIsCommon(a', b');
      var t := CommonTail(a', b');
      TailStep(a, t);
      TailStep(b, t);
    }
  }

  lemma TailStep(a: seq<Line>, t: nat)
    requires t < |a|
    ensures a[|a| - (t + 1)..] == a[..|a| - 1][|a| - 1 - t..] + [a[|a| - 1]]
  {
  }

  function AfterHead(a: seq<Line>, b: seq<Line>): (r: (seq<Line>, seq<Line>))
    ensures |a| - |r.0| == |b| - |r.1| >= 0
  {
    (a[CommonHead(a, b)..], b[CommonHead(a, b)..])
  }

  function BeforeTail(a: seq<Line>, b: seq<Line>): (r: (seq<Line>, seq<Line>))
    ensures |a| - |r.0| == |b| - |r.1| >= 0
  {
    (a[..|a| - CommonTail(a, b)], b[..|b| - CommonTail(a, b)])
  }

  /** What remains of both texts between their common head and the common
      tail of what follows it. */
  function Middle(a: seq<Line>, b: seq<Line>): (r: (seq<Line>, seq<Line>))
    ensures |a| - |r.0| == |b| - |r.1| >= 0
  {
    var (a', b') := AfterHead(a, b);
    BeforeTail(a', b')
  }

  function EditLimit(n: nat, m: nat): (limit: nat)
  {
    Max(Min(MAX_EDIT, MAX_WORK / Max(n + m, 1)), 1)
  }

  /** Common lines before the texts are common lines of what follows, moved. */
  lemma PrefixCommon(p: seq<Line>, a: seq<Line>, b: seq<Line>, l: nat)
    requires IsLcsLength(a, b, l)
    ensures IsLcsLength(p + a, p + b, |p| + l)
  {
    var c :| IsCommon(c, a, b) && |c| == l;
    PrefixExtends(p, c, a);
    PrefixExtends(p, c, b);
    assert IsCommon(p + c, p + a, p + b);
    forall e | IsCommon(e, p + a, p + b) ensures |e| <= |p| + l {
      var kept := if |e| <= |p| then [] else e[|p|..];
      if |p| < |e| {
        PrefixDrops(p, e, a);
        PrefixDrops(p, e, b);
        assert IsCommon(kept, a, b);
      }
    }
  }

  lemma PrefixExtends(p: seq<Line>, c: seq<Line>, a: seq<Line>)
    requires IsSubsequence(c, a)
    ensures IsSubsequence(p + c, p + a)
  {
    var places :| Embeds(places, c, a);
    var moved := seq(|p| + |c|, i requires 0 <= i < |p| + |c| => if i < |p| then i else |p| + places[i - |p|]);
    assert Embeds(moved, p + c, p + a);
  }

  /** Places never fall behind their index, so past the first `|p|` lines
      of `e` they are past `p`. */
  lemma {:induction false} PlacesGrow(places: seq<nat>, e: seq<Line>, a: seq<Line>, i: nat)
    requires Embeds(places, e, a) && i < |e|
    ensures i <= places[i]
  {
    if i > 0 { PlacesGrow(places, e, a, i - 1); }
  }

  lemma PrefixDrops(p: seq<Line>, e: seq<Line>, a: seq<Line>)
    requires IsSubsequence(e, p + a) && |p| < |e|
    ensures IsSubsequence(e[|p|..], a)
  {
    var places :| Embeds(places, e, p + a);
    forall i | |p| <= i < |e| ensures |p| <= places[i] {
      PlacesGrow(places, e, p + a, i);
    }
    var moved := seq(|e| - |p|, i requires 0 <= i < |e| - |p| => (places[i + |p|] - |p|) as nat);
    assert Embeds(moved, e[|p|..], a);
  }

  lemma {:induction false} SuffixDist(a: seq<Line>, b: seq<Line>, s: seq<Line>, x: nat, y: nat)
    requires x <= |a| && y <= |b|
    ensures Dist(a + s, b + s, x, y) == Dist(a, b, x, y)
    decreases x + y
  {
    hide Dist;
    DistStep(a, b, x, y);
    DistStep(a + s, b + s, x, y);
    if x > 0 && y > 0 {
      SuffixDist(a, b, s, x - 1, y - 1);
      SuffixDist(a, b, s, x - 1, y);
      SuffixDist(a, b, s, x, y - 1);
    }
  }

  lemma {:induction false} SuffixMatches(a: seq<Line>, b: seq<Line>, s: seq<Line>, i: nat)
    requires i <= |s|
    ensures Dist(a + s, b + s, |a| + i, |b| + i) == Dist(a, b, |a|, |b|)
  {
    if i == 0 {
      SuffixDist(a, b, s, |a|, |b|);
    } else {
      SuffixMatches(a, b, s, i - 1);
      assert Matches(a + s, b + s, |a| + i - 1, |b| + i - 1);
    }
  }

  lemma SuffixCommon(a: seq<Line>, b: seq<Line>, s: seq<Line>, l: nat)
    requires IsLcsLength(a, b, l)
    ensures IsLcsLength(a + s, b + s, l + |s|)
  {
    LcsGivesDist(a, b, l);
    SuffixMatches(a, b, s, |s|);
    DistGivesLcs(a + s, b + s, l + |s|);
  }

  lemma LcsGivesDist(a: seq<Line>, b: seq<Line>, l: nat)
    requires IsLcsLength(a, b, l)
    ensures 2 * l + ShortestEdit(a, b) == |a| + |b|
  {
    DistAndKept(a, b, |a|, |b|);
    DistGivesLcs(a, b, Kept(a, b, |a|, |b|));
  }

  lemma HeadIsExact(a: seq<Line>, b: seq<Line>, l: nat)
    requires IsLcsLength(AfterHead(a, b).0, AfterHead(a, b).1, l)
    ensures IsLcsLength(a, b, |a| - |AfterHead(a, b).0| + l)
  {
    hide IsLcsLength, CommonHead;
    HeadIsCommon(a, b);
    var h := CommonHead(a, b);
    PrefixCommon(a[..h], a[h..], b[h..], l);
    assert a == a[..h] + a[h..] && b == a[..h] + b[h..];
  }

  lemma TailIsExact(a: seq<Line>, b: seq<Line>, l: nat)
    requires IsLcsLength(BeforeTail(a, b).0, BeforeTail(a, b).1, l)
    ensures IsLcsLength(a, b, |a| - |BeforeTail(a, b).0| + l)
  {
    hide IsLcsLength, CommonTail;
    TailIsCommon(a, b);
    var i, j := |a| - CommonTail(a, b), |b| - CommonTail(a, b);
    SuffixCommon(a[..i], b[..j], a[i..], l);
    assert a == a[..i] + a[i..] && b == b[..j] + a[i..];
  }

  /** Trimming the common head and tail keeps the shortest edit and takes
      their lines off the longest common subsequence. */
  lemma TrimmingIsExact(a: seq<Line>, b: seq<Line>, l: nat)
    requires IsLcsLength(Middle(a, b).0, Middle(a, b).1, l)
    ensures IsLcsLength(a, b, |a| - |Middle(a, b).0| + l)
    ensures ShortestEdit(a, b) == ShortestEdit(Middle(a, b).0, Middle(a, b).1)
  {
    hide IsLcsLength, AfterHead, BeforeTail, ShortestEdit;
    var (a', b') := AfterHead(a, b);
    var (c, d) := BeforeTail(a', b');
    TailIsExact(a', b', l);
    HeadIsExact(a, b, |a'| - |c| + l);
    LcsGivesDist(a, b, |a| - |c| + l);
    LcsGivesDist(c, d, l);
  }

  lemma LimitAtMost(n: nat, m: nat)
    requires 0 < n + m <= MAX_WORK
    ensures EditLimit(n, m) * (n + m) <= MAX_WORK
  {
  }

  /** The limit is the greatest, from one edit up to `MAX_EDIT`, with which the
      work is bounded. */
  lemma LimitIsGreatest(n: nat, m: nat, l: nat)
    ensures var limit := EditLimit(n, m);
            && 1 <= limit <= MAX_EDIT && (limit == 1 || limit * (n + m) <= MAX_WORK)
            && (l <= MAX_EDIT && l * (n + m) <= MAX_WORK ==> l <= limit)
  {
    if n + m > 0 {
      Fits(EditLimit(n, m), n + m);
      Fits(l, n + m);
    }
  }

  lemma Fits(k: nat, size: nat)
    requires size > 0
    ensures k * size <= MAX_WORK <==> k <= MAX_WORK / size
  {
    var most := MAX_WORK / size;
    Quotient(size);
    if k <= most { Grows(k, most, size); } else { Grows(most + 1, k, size); }
  }

  lemma Quotient(size: nat)
    requires size > 0
    ensures MAX_WORK / size * size <= MAX_WORK < (MAX_WORK / size + 1) * size
  {
  }

  lemma Grows(k: nat, l: nat, size: nat)
    requires k <= l
    ensures k * size <= l * size
  {
  }

  /** The middle of two texts is what is left between lines both begin and lines
      both end with, and neither begins nor ends like the other any more. */
  lemma MiddleIsBare(a: seq<Line>, b: seq<Line>) returns (head: seq<Line>, tail: seq<Line>)
    ensures var (c, d) := Middle(a, b);
            && a == head + c + tail && b == head + d + tail
            && (c != [] && d != [] ==> c[0] != d[0] && c[|c| - 1] != d[|d| - 1])
  {
    hide AfterHead, BeforeTail;
    var (a', b') := AfterHead(a, b);
    head := HeadParts(a, b);
    tail := TailParts(a', b');
  }

  lemma HeadParts(a: seq<Line>, b: seq<Line>) returns (head: seq<Line>)
    ensures var (c, d) := AfterHead(a, b);
            a == head + c && b == head + d && (c != [] && d != [] ==> c[0] != d[0])
  {
    hide CommonHead;
    HeadIsCommon(a, b);
    HeadEnds(a, b);
    head := a[..CommonHead(a, b)];
  }

  lemma TailParts(a: seq<Line>, b: seq<Line>) returns (tail: seq<Line>)
    ensures var (c, d) := BeforeTail(a, b);
            && a == c + tail && b == d + tail && (c != [] && d != [] ==> c[|c| - 1] != d[|d| - 1])
  {
    hide CommonTail;
    var i, j := |a| - CommonTail(a, b), |b| - CommonTail(a, b);
    TailIsCommon(a, b);
    TailEnds(a, b);
    CutAt(a, i);
    CutAt(b, j);
    tail := a[i..];
  }

  lemma CutAt(a: seq<Line>, i: nat)
    requires i <= |a|
    ensures a == a[..i] + a[i..] && (i > 0 ==> a[..i][i - 1] == a[i - 1])
  {
  }

  lemma {:induction false} HeadEnds(a: seq<Line>, b: seq<Line>)
    ensures var h := CommonHead(a, b); h < |a| && h < |b| ==> a[h] != b[h]
  {
    if a != [] && b != [] && a[0] == b[0] { HeadEnds(a[1..], b[1..]); }
  }

  lemma {:induction false} TailEnds(a: seq<Line>, b: seq<Line>)
    ensures var i, j := |a| - CommonTail(a, b), |b| - CommonTail(a, b); i > 0 && j > 0 ==> a[i - 1] != b[j - 1]
  {
    if a != [] && b != [] && a[|a| - 1] == b[|b| - 1] { TailEnds(a[..|a| - 1], b[..|b| - 1]); }
  }

  lemma WorkWithinLimit(n: nat, m: nat, work: nat)
    requires work <= (2 * Min(EditLimit(n, m), n + m) + 1) * Min(n, m)
    requires n + m <= MAX_WORK
    ensures work <= MAX_WORK + Min(n, m)
  {
    hide EditLimit;
    var limit, least := EditLimit(n, m), Min(n, m);
    if n + m > 0 {
      var used := Min(limit, n + m);
      LimitAtMost(n, m);
    }
  }

  /** The counts are those of a shortest edit, and what they leave of either
      text is a longest common subsequence. */
  ghost predicate IsExact(a: seq<Line>, b: seq<Line>, r: LineChanges) {
    && r.removed <= |a| && r.added <= |b|
    && IsLcsLength(a, b, |a| - r.removed)
    && IsShortestEdit(a, b, r.added + r.removed)
  }

  lemma CountsAreExact(a: seq<Line>, b: seq<Line>, d: nat, r: LineChanges)
    requires var (a', b') := Middle(a, b);
             && d == ShortestEdit(a', b')
             && r == LineChanges((|b'| + d - |a'|) / 2, (|a'| + d - |b'|) / 2)
    ensures |a| - r.removed == |b| - r.added && IsExact(a, b, r)
  {
    var (a', b') := Middle(a, b);
    var kept := Kept(a', b', |a'|, |b'|);
    DistAndKept(a', b', |a'|, |b'|);
    LcsOfKept(a', b');
    TrimmingIsExact(a, b, kept);
    assert r.added == |b'| - kept && r.removed == |a'| - kept;
    DistIsShortestEdit(a, b);
  }

  lemma LcsOfKept(a: seq<Line>, b: seq<Line>)
    ensures IsLcsLength(a, b, Kept(a, b, |a|, |b|))
  {
    DistAndKept(a, b, |a|, |b|);
    DistGivesLcs(a, b, Kept(a, b, |a|, |b|));
  }

  /** `line_changes`, over the lines of both texts. */
  method CountLineChanges(was: Option<seq<Line>>, now: seq<Line>) returns (r: LineChanges, ghost work: nat)
    ensures |was.UnwrapOr([])| - r.removed == |now| - r.added
    ensures var full := was.UnwrapOr([]);
            var (a, b) := Middle(full, now);
            if ShortestEdit(full, now) <= EditLimit(|a|, |b|) then IsExact(full, now, r)
            else r == LineChanges(|b|, |a|)
    ensures var (a, b) := Middle(was.UnwrapOr([]), now);
            |a| + |b| <= MAX_WORK ==> work <= MAX_WORK + Min(|a|, |b|)
  {
    hide *;
    var full := was.UnwrapOr([]);
    var (a, b) := Middle(full, now);
    var n, m := |a|, |b|;
    var limit := EditLimit(n, m);
    var distance;
    distance, work := EditDistance(a, b, limit);
    if n + m <= MAX_WORK { WorkWithinLimit(n, m, work); }
    LcsOfKept(a, b);
    TrimmingIsExact(full, now, Kept(a, b, n, m));
    match distance
    case Some(d) =>
      ShortestEditIsUnique(a, b, d);
      DistAndKept(a, b, n, m);
      r := LineChanges((m + d - n) / 2, (n + d - m) / 2);
      CountsAreExact(full, now, d, r);
    case None =>
      NotWithin(a, b, limit);
      r := LineChanges(m, n);
  }
}
