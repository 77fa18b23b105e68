/** Which items the bounds leave: nothing is evicted without need, and an item
    outlives the showing of a user message held back exactly when the list from
    the first of its turn on is within the bounds. */
module Survival {
  import opened Text
  import opened Activity
  import opened Projection
  import opened Accounting
  import opened TurnRetention

  // ----- Evictions are needed

  predicate IsOver(items: seq<ActivityItem>, retention: Retention) {
    |items| > retention.sessionItems || SumCompact(items) > retention.sessionBytes
  }

  /** `rest` is `all`, or what is left of it when the first group of a tail of
      it that was over the bounds is gone. */
  ghost predicate NeededOf(all: seq<ActivityItem>, rest: seq<ActivityItem>, retention: Retention) {
    rest == all ||
    exists items :: IsTail(items, all) && LastEviction(items, rest, retention)
  }

  /** The first group of `items` went, since they were over the bounds. */
  ghost predicate LastEviction(items: seq<ActivityItem>, rest: seq<ActivityItem>, retention: Retention) {
    && |rest| < |items| && IsOver(items, retention) && rest == items[|items| - |rest|..]
    && (forall i :: 0 <= i < |items| - |rest| ==> items[i].turnId == items[0].turnId)
    && (items[0].turnId.None? ==> |items| == |rest| + 1)
  }

  lemma EvictOnce(p: Projection)
    requires Ordered(p) && p.held.None? && Accounted(p) && OverBounds(p)
    requires FirstOutside(p.snapshot.items, CurrentTurn(p)) == Some(0)
    ensures var q := Evict(p, GroupOf(p.snapshot.items, p.snapshot.items[0]));
            LastEviction(p.snapshot.items, q.snapshot.items, p.retention)
  {
    hide Ordered, CurrentTurn, Evict, GroupOf, Without, Ids, SumCompact, IsOutside, DetailTotal;
    var items := p.snapshot.items;
    var g := GroupIsPrefix(p);
    EvictParts(p, GroupOf(items, items[0]));
    OrderedIsUnique(p);
    WithoutPrefix(items, g);
  }

  lemma NeededThen(all: seq<ActivityItem>, items: seq<ActivityItem>, rest: seq<ActivityItem>, retention: Retention)
    requires IsTail(items, all) && NeededOf(items, rest, retention) && rest != items
    ensures NeededOf(all, rest, retention)
  {
    hide LastEviction, IsTail;
    var last :| IsTail(last, items) && LastEviction(last, rest, retention);
    TailOfTail(last, items, all);
  }

  lemma NeededFirst(all: seq<ActivityItem>, rest: seq<ActivityItem>, retention: Retention)
    requires LastEviction(all, rest, retention)
    ensures NeededOf(all, rest, retention)
  {
    hide LastEviction, IsTail;
    TailOfAll(all);
  }

  lemma TailOfAll(items: seq<ActivityItem>)
    ensures IsTail(items, items)
  {
  }

  /** Nothing is evicted within the bounds, and the last group evicted was
      evicted from a list over them. */
  lemma {:induction false} EvictionIsNeeded(p: Projection)
    requires Ordered(p) && p.held.None? && Accounted(p)
    ensures NeededOf(p.snapshot.items, Enforce(p).snapshot.items, p.retention)
    decreases |p.snapshot.items|
  {
    hide Ordered, Accounted, CurrentTurn, Evict, GroupOf, IsOutside, OverBounds, LastEviction, NeededOf, IsTail;
    if OverBounds(p) && FirstOutside(p.snapshot.items, CurrentTurn(p)).Some? {
      OldestIsFirst(p);
      EvictKeeps(p);
      var ids := GroupOf(p.snapshot.items, p.snapshot.items[0]);
      var q := Evict(p, ids);
      EvictAccounted(p, ids);
      EvictParts(p, ids);
      EvictOnce(p);
      EnforceStep(p);
      EvictionIsNeeded(q);
      NeededFirst(p.snapshot.items, q.snapshot.items, p.retention);
      if Enforce(q).snapshot.items != q.snapshot.items {
        NeededThen(p.snapshot.items, q.snapshot.items, Enforce(q).snapshot.items, p.retention);
      }
    } else {
      NothingNeeded(p.snapshot.items, p.retention);
    }
  }

  lemma NothingNeeded(items: seq<ActivityItem>, retention: Retention)
    ensures NeededOf(items, items, retention)
  {
  }

  // ----- How far evictions reach

  lemma {:induction false} SumConcat(a: seq<ActivityItem>, b: seq<ActivityItem>)
    ensures SumCompact(a + b) == SumCompact(a) + SumCompact(b)
  {
    hide CompactSize, SumCompact;
    if b == [] {
      NothingSums([]);
      assert a + b == a;
    } else {
      var n := |b| - 1;
      SumConcat(a, b[..n]);
      SumStep(b);
      SumStep(a + b);
      assert (a + b)[..|a + b| - 1] == a + b[..n];
    }
  }

  /** The items from `g` on are over the bounds. */
  predicate IsOverFrom(p: Projection, g: nat)
    requires g <= |p.snapshot.items|
  {
    || |p.snapshot.items| - g > p.retention.sessionItems
    || p.compactBytes - SumCompact(p.snapshot.items[..g]) > p.retention.sessionBytes
  }

  /** A turn's items, or one item outside turns, start at `g`. */
  predicate StartsGroup(items: seq<ActivityItem>, g: nat) {
    g < |items| && (g == 0 || items[g].turnId.None? || items[g - 1].turnId != items[g].turnId)
  }

  /** The eviction of the first group, and the bytes it frees. */
  lemma EvictFirst(p: Projection) returns (g: nat)
    requires Ordered(p) && p.held.None? && p.snapshot.items != [] && IsOutside(p.snapshot.items[0], CurrentTurn(p))
    ensures 0 < g <= |p.snapshot.items|
    ensures var q := Evict(p, GroupOf(p.snapshot.items, p.snapshot.items[0]));
            && q.snapshot.items == p.snapshot.items[g..]
            && q.compactBytes == p.compactBytes - SumCompact(p.snapshot.items[..g])
            && Ordered(q) && q.held.None? && CurrentTurn(q) == CurrentTurn(p) && q.retention == p.retention
            && forall i :: 0 < i < |p.snapshot.items| && StartsGroup(p.snapshot.items, i) ==> g <= i
  {
    hide *;
    var items := p.snapshot.items;
    var ids := GroupOf(items, items[0]);
    g := GroupIsPrefix(p);
    EvictKeeps(p);
    EvictParts(p, ids);
    EvictBytes(p, ids);
    OrderedIsUnique(p);
    WithoutPrefix(items, g);
    SumWithout(items, ids);
    SumConcat(items[..g], items[g..]);
    assert items[..g] + items[g..] == items;
    forall i | 0 < i < |items| && StartsGroup(items, i) ensures g <= i {
      GroupIsWhole(items, g, i);
    }
  }

  lemma GroupIsWhole(items: seq<ActivityItem>, g: nat, i: nat)
    requires 0 < i < |items| && StartsGroup(items, i) && 0 < g <= |items|
    requires forall j :: 0 <= j < g ==> items[j].turnId == items[0].turnId
    requires items[0].turnId.None? ==> g == 1
    ensures g <= i
  {
  }

  lemma OverFromIsOver(p: Projection, g: nat)
    requires g <= |p.snapshot.items| && IsOverFrom(p, g)
    ensures OverBounds(p)
  {
    hide SumCompact;
  }

  lemma OverFromStart(p: Projection)
    ensures IsOverFrom(p, 0) <==> OverBounds(p)
  {
    hide CompactSize;
    assert p.snapshot.items[..0] == [];
  }

  lemma OverFromLater(p: Projection, q: Projection, f: nat, g: nat)
    requires f <= g <= |p.snapshot.items| && q.snapshot.items == p.snapshot.items[f..] && q.retention == p.retention
    requires q.compactBytes == p.compactBytes - SumCompact(p.snapshot.items[..f])
    ensures IsOverFrom(q, g - f) <==> IsOverFrom(p, g)
  {
    hide SumCompact;
    assert p.snapshot.items[..g] == p.snapshot.items[..f] + q.snapshot.items[..g - f];
    SumConcat(p.snapshot.items[..f], q.snapshot.items[..g - f]);
  }

  lemma FirstIsOutside(p: Projection, g: nat)
    requires Ordered(p) && p.held.None? && g < |p.snapshot.items| && IsOutside(p.snapshot.items[g], CurrentTurn(p))
    ensures FirstOutside(p.snapshot.items, CurrentTurn(p)) == Some(0) && IsOutside(p.snapshot.items[0], CurrentTurn(p))
  {
    hide Ordered, CurrentTurn, IsOutside;
    OldestIsFirst(p);
  }

  lemma NotOverStays(p: Projection)
    requires !OverBounds(p)
    ensures Enforce(p) == p
  {
  }

  lemma SliceStarts(items: seq<ActivityItem>, f: nat, g: nat)
    requires f <= g && StartsGroup(items, g)
    ensures StartsGroup(items[f..], g - f) && items[f..][g - f] == items[g]
  {
  }

  lemma TailIsShorter(p: Projection)
    requires Ordered(p) && p.held.None?
    ensures |Enforce(p).snapshot.items| <= |p.snapshot.items|
  {
    hide Ordered, Enforce, OverBounds, IsOutside, CurrentTurn;
    EnforceKeeps(p);
    EnforcedTail(p);
  }

  /** Evictions reach a group outside the current turn exactly when the list
      from it on is over the bounds. */
  lemma {:induction false} EvictionsReach(p: Projection, g: nat)
    requires Ordered(p) && p.held.None? && StartsGroup(p.snapshot.items, g)
    requires IsOutside(p.snapshot.items[g], CurrentTurn(p))
    ensures |Enforce(p).snapshot.items| < |p.snapshot.items| - g <==> IsOverFrom(p, g)
    decreases g
  {
    hide Ordered, Enforce, Evict, GroupOf, OverBounds, IsOutside, CurrentTurn, IsOverFrom, StartsGroup, SumCompact;
    var items := p.snapshot.items;
    StartIsItem(items, g);
    OverFromStart(p);
    if IsOverFrom(p, g) { OverFromIsOver(p, g); }
    if OverBounds(p) {
      FirstIsOutside(p, g);
      EnforceStep(p);
      var f := EvictFirst(p);
      var q := Evict(p, GroupOf(items, items[0]));
      if g == 0 {
        TailIsShorter(q);
      } else {
        SliceStarts(items, f, g);
        OverFromLater(p, q, f, g);
        EvictionsReach(q, g - f);
      }
    } else {
      NotOverStays(p);
    }
  }

  lemma StartIsItem(items: seq<ActivityItem>, g: nat)
    requires StartsGroup(items, g)
    ensures g < |items|
  {
  }

  // ----- Items and the message held back

  /** Where the items of the turn of item `i` start, which stand together. */
  function GroupStart(items: seq<ActivityItem>, i: nat): (g: nat)
    requires i < |items|
    ensures g <= i && StartsGroup(items, g) && items[g].turnId == items[i].turnId
    ensures items[i].turnId.None? ==> g == i
  {
    if i > 0 && items[i].turnId.Some? && items[i - 1].turnId == items[i].turnId then GroupStart(items, i - 1) else i
  }

  /** With the message held back, the items from the first of the turn of item
      `i` on are within the bounds. */
  predicate Stays(p: Projection, i: nat)
    requires p.held.Some? && i < |p.snapshot.items|
  {
    var g := GroupStart(p.snapshot.items, i);
    && |p.snapshot.items| + 1 - g <= p.retention.sessionItems
    && p.compactBytes + CompactSize(p.held.value) - SumCompact(p.snapshot.items[..g]) <= p.retention.sessionBytes
  }

  /** In terms of the items: the list from the first of the turn on, with the
      message held back at its end, is within the bounds. */
  lemma StaysIsNotOver(p: Projection, i: nat)
    requires Accounted(p) && p.held.Some? && i < |p.snapshot.items|
    ensures Stays(p, i) <==>
              !IsOver(p.snapshot.items[GroupStart(p.snapshot.items, i)..] + [p.held.value], p.retention)
  {
    hide CompactSize, SumCompact, DetailTotal, GroupStart;
    var items, h, g := p.snapshot.items, p.held.value, GroupStart(p.snapshot.items, i);
    SumConcat(items[..g], items[g..]);
    assert items[..g] + items[g..] == items;
    SumStep(items[g..] + [h]);
    assert (items[g..] + [h])[..|items[g..] + [h]| - 1] == items[g..];
  }

  lemma HeldPut(p: Projection)
    requires Ordered(p) && p.held.Some?
    ensures var r := PutItem(p.(held := None), p.held.value);
            && r.snapshot.items == p.snapshot.items + [p.held.value] && r.inserted == p.inserted + [EntryOf(p.held.value)]
            && r.compactBytes == p.compactBytes + CompactSize(p.held.value) && r.retention == p.retention
  {
    hide CompactSize, UniqueIds, IsSuffix, Contiguous, CurrentLast, TurnsClosed, Counts, ReplayOrdered;
    HeldIsNew(p);
  }

  lemma MoreStarts(items: seq<ActivityItem>, item: ActivityItem, g: nat)
    requires StartsGroup(items, g)
    ensures StartsGroup(items + [item], g) && (items + [item])[g] == items[g]
  {
  }

  lemma StaysIsWithin(p: Projection, i: nat)
    requires Ordered(p) && p.held.Some? && i < |p.snapshot.items|
    ensures var r, g := PutItem(p.(held := None), p.held.value), GroupStart(p.snapshot.items, i);
            g <= |r.snapshot.items| && (Stays(p, i) <==> !IsOverFrom(r, g))
  {
    hide Ordered, PutItem, SumCompact, CompactSize, GroupStart;
    HeldPut(p);
    var g := GroupStart(p.snapshot.items, i);
    assert (p.snapshot.items + [p.held.value])[..g] == p.snapshot.items[..g];
  }

  /** An item outside the current turn is still there once the message held back
      is shown exactly when it `Stays`. */
  lemma StaysExactly(p: Projection, i: nat)
    requires Ordered(p) && p.held.Some? && i < |p.snapshot.items| && IsOutside(p.snapshot.items[i], CurrentTurn(p))
    requires p.held.value.id != p.snapshot.items[i].id
    ensures var id := p.snapshot.items[i].id;
            IndexOf(ShowHeld(p, Some(id)).snapshot.items, id).Some? <==> Stays(p, i)
  {
    hide *;
    var items, h, id := p.snapshot.items, p.held.value, p.snapshot.items[i].id;
    var g := GroupStart(items, i);
    var r := PutItem(p.(held := None), h);
    var q := ShowHeld(p, Some(id));
    ShowsHeld(p, Some(id));
    ShowHeldKeeps(p, Some(id));
    PutHeld(p);
    HeldPut(p);
    PutParts(p.(held := None), h);
    SameCurrentTurn(p, r);
    StaysIsWithin(p, i);
    MoreStarts(items, h, g);
    SameOutside(items[g], items[i], CurrentTurn(p));
    EvictionsReach(r, g);
    EnforceKeeps(r);
    EnforcedTail(r);
    EnforcedLog(r);
    OrderedIsUnique(r);
    if Stays(p, i) {
      InLongTail(q.snapshot.items, r.snapshot.items, i);
    } else {
      WholeGroupGone(q, r, g, i);
    }
  }

  lemma SameOutside(a: ActivityItem, b: ActivityItem, current: Option<string>)
    requires a.turnId == b.turnId && IsOutside(b, current)
    ensures IsOutside(a, current)
  {
  }

  lemma EnforcedLog(p: Projection)
    requires Enforced(p, Enforce(p))
    ensures Enforce(p).inserted == p.inserted && Enforce(p).held.None? && Ordered(Enforce(p))
    ensures CurrentTurn(Enforce(p)) == CurrentTurn(p)
  {
    hide Ordered, OverBounds, IsOutside, CurrentTurn, Enforce, IsTail;
  }

  lemma InLongTail(rest: seq<ActivityItem>, items: seq<ActivityItem>, i: nat)
    requires IsTail(rest, items) && i < |items| && |items| - |rest| <= i
    ensures IndexOf(rest, items[i].id).Some?
  {
    hide IndexOf;
    assert rest[i - (|items| - |rest|)] == items[i];
  }

  /** When evictions reach the first of a turn, none of the turn is left. */
  lemma WholeGroupGone(q: Projection, r: Projection, g: nat, i: nat)
    requires Ordered(q) && Ordered(r) && q.held.None? && q.inserted == r.inserted && r.held.None?
    requires IsTail(q.snapshot.items, r.snapshot.items) && g <= i < |r.snapshot.items|
    requires |q.snapshot.items| < |r.snapshot.items| - g
    requires r.snapshot.items[g].turnId == r.snapshot.items[i].turnId && (r.snapshot.items[i].turnId.None? ==> g == i)
    ensures IndexOf(q.snapshot.items, r.snapshot.items[i].id).None?
  {
    hide Contiguous, CurrentLast, Counts, ReplayOrdered, CurrentTurn, IndexOf, UniqueIds;
    var id := r.snapshot.items[i].id;
    var n := |r.snapshot.items| - |q.snapshot.items|;
    assert Log(q) == q.inserted;
    assert EntryOf(r.snapshot.items[g]) == r.inserted[|r.inserted| - |r.snapshot.items| + g];
    if IndexOf(q.snapshot.items, id).Some? {
      var k := IndexOf(q.snapshot.items, id).value;
      OneOfId(r.snapshot.items, n + k, i);
    }
  }

  lemma OneOfId(items: seq<ActivityItem>, j: nat, k: nat)
    requires UniqueIds(items) && j < |items| && k < |items|
    ensures items[j].id == items[k].id ==> j == k
  {
  }

  // ----- Putting an item within the bounds

  /** Some item, in the list or held back, is of the current turn. */
  predicate TurnShown(p: Projection) {
    || (exists i :: 0 <= i < |p.snapshot.items| && p.snapshot.items[i].turnId == CurrentTurn(p))
    || (p.held.Some? && p.held.value.turnId == CurrentTurn(p))
  }

  /** Item `i`, updated while a message is held back, keeps its place or may
      come last: it is of the current turn, it stays, or it is outside turns and
      the current turn has none yet. */
  predicate Rejoins(p: Projection, i: nat)
    requires p.held.Some? && i < |p.snapshot.items|
  {
    var turn := p.snapshot.items[i].turnId;
    turn == CurrentTurn(p) || Stays(p, i) || (turn.None? && !TurnShown(p))
  }

  /** The message held back evicts item `i`, of another turn or none. */
  predicate MakesRoom(p: Projection, i: nat)
    requires i < |p.snapshot.items|
  {
    p.held.Some? && IsOutside(p.snapshot.items[i], CurrentTurn(p)) && !Stays(p, i)
  }

  /** An item that keeps the order when it is put: not the one held back, new
      by then and of the current turn, or known under its turn, which it may
      rejoin. */
  predicate Fits(p: Projection, item: ActivityItem) {
    && (p.held.Some? ==> p.held.value.id != item.id)
    && match IndexOf(p.snapshot.items, item.id)
       case Some(i) =>
         || (p.snapshot.items[i].turnId == item.turnId && (p.held.Some? ==> Rejoins(p, i)))
         || (item.turnId == CurrentTurn(p) && MakesRoom(p, i))
       case None => item.turnId == CurrentTurn(p)
  }

  /** What a new item asks of the log: the current turn, or none while the
      current turn has no item. */
  ghost predicate MayCome(p: Projection, item: ActivityItem) {
    || item.turnId == CurrentTurn(p)
    || (item.turnId.None?
        && forall i :: 0 <= i < |p.inserted| ==> p.inserted[i].turn.None? || p.inserted[i].turn != CurrentTurn(p))
  }

  lemma NoneOfTurn(p: Projection)
    requires Ordered(p) && p.held.Some? && !TurnShown(p) && CurrentTurn(p).Some?
    ensures var log := p.inserted + [EntryOf(p.held.value)];
            forall i :: 0 <= i < |log| ==> log[i].turn != CurrentTurn(p)
  {
    hide Contiguous, CurrentLast, Counts, ReplayOrdered, UniqueIds, CurrentTurn;
    var items, n := p.snapshot.items, |p.inserted| - |p.snapshot.items|;
    assert Log(p) == p.inserted + [EntryOf(p.held.value)];
    forall i | 0 <= i < |p.inserted| ensures p.inserted[i].turn != CurrentTurn(p) {
      assert Log(p)[i] == p.inserted[i];
      if i >= n { assert EntryOf(items[i - n]) == p.inserted[n + (i - n)]; }
    }
  }

  lemma ShownLog(p: Projection, except: Option<string>)
    requires Ordered(p) && p.held.Some? && except != Some(p.held.value.id)
    ensures var q := ShowHeld(p, except);
            && q.inserted == p.inserted + [EntryOf(p.held.value)] && q.held.None? && Ordered(q)
            && CurrentTurn(q) == CurrentTurn(p)
  {
    hide *;
    ShowHeldKeeps(p, except);
    ShowsHeld(p, except);
    PutHeld(p);
    HeldPut(p);
    PutParts(p.(held := None), p.held.value);
    EnforceKeeps(PutItem(p.(held := None), p.held.value));
    EnforcedLog(PutItem(p.(held := None), p.held.value));
  }

  lemma KnownIfShown(p: Projection, item: ActivityItem)
    requires Ordered(p) && Fits(p, item)
    ensures var q := ShowHeld(p, Some(item.id));
            match IndexOf(q.snapshot.items, item.id)
            case Some(i) => q.snapshot.items[i].turnId == item.turnId
            case None => MayCome(q, item)
  {
    hide Ordered, ShowHeld, CurrentTurn, Stays, TurnShown, IsTail, UniqueIds;
    OrderedIsUnique(p);
    if p.held.None? {
      NothingHeld(p, Some(item.id));
    } else {
      ShownItems(p, Some(item.id));
      TailKnows(ShowHeld(p, Some(item.id)).snapshot.items, p.snapshot.items, p.held.value, item.id);
      ShownLog(p, Some(item.id));
      if IndexOf(p.snapshot.items, item.id).Some? {
        var i := IndexOf(p.snapshot.items, item.id).value;
        if IsOutside(p.snapshot.items[i], CurrentTurn(p)) {
          StaysExactly(p, i);
          if !TurnShown(p) && CurrentTurn(p).Some? { NoneOfTurn(p); }
        }
      }
    }
  }

  lemma PutComes(p: Projection, item: ActivityItem)
    requires Ordered(p) && p.held.None? && IndexOf(p.snapshot.items, item.id).None? && MayCome(p, item)
    ensures Ordered(PutItem(p, item))
  {
    hide Ordered, PutItem, CurrentTurn;
    if item.turnId == CurrentTurn(p) { PutNew(p, item); } else { PutApart(p, item); }
  }

  lemma UpsertIs(p: Projection, item: ActivityItem)
    ensures Upsert(p, item) == Enforce(PutItem(ShowHeld(p, Some(item.id)), item))
  {
    hide Enforce, PutItem, ShowHeld;
  }

  /** An item that fits is put in order, after the one held back, and the
      bounds then hold or only items of the current turn are left. */
  lemma UpsertKeeps(p: Projection, item: ActivityItem)
    requires Ordered(p) && Fits(p, item)
    ensures Keeps(p, Upsert(p, item)) && Upsert(p, item).held.None?
    ensures var q := Upsert(p, item);
            OverBounds(q) ==> forall i :: 0 <= i < |q.snapshot.items| ==> !IsOutside(q.snapshot.items[i], CurrentTurn(p))
  {
    hide Ordered, ShowHeld, PutItem, Enforce, CurrentTurn, OverBounds, IsOutside, MayCome, Rejoins;
    ShowHeldKeeps(p, Some(item.id));
    KnownIfShown(p, item);
    var q := ShowHeld(p, Some(item.id));
    if IndexOf(q.snapshot.items, item.id).Some? { PutKnown(q, item); } else { PutComes(q, item); }
    PutParts(q, item);
    EnforceKeeps(PutItem(q, item));
    EnforceParts(PutItem(q, item));
    ShownParts(p, Some(item.id));
  }

  // ----- Exactly when an update keeps the order

  lemma TurnBefore(p: Projection)
    requires Ordered(p) && p.held.Some? && TurnShown(p)
    ensures var log := p.inserted + [EntryOf(p.held.value)];
            exists i :: 0 <= i < |log| && log[i].turn == CurrentTurn(p)
  {
    hide Contiguous, CurrentLast, TurnsClosed, Counts, ReplayOrdered, UniqueIds, CurrentTurn;
    var log := p.inserted + [EntryOf(p.held.value)];
    if p.held.value.turnId == CurrentTurn(p) {
      assert log[|p.inserted|].turn == CurrentTurn(p);
    } else {
      var i :| 0 <= i < |p.snapshot.items| && p.snapshot.items[i].turnId == CurrentTurn(p);
      assert EntryOf(p.snapshot.items[i]) == p.inserted[|p.inserted| - |p.snapshot.items| + i];
      assert log[|p.inserted| - |p.snapshot.items| + i].turn == CurrentTurn(p);
    }
  }

  lemma EntryAt(p: Projection, i: nat)
    requires Ordered(p) && i < |p.snapshot.items|
    ensures |p.snapshot.items| <= |p.inserted|
    ensures p.inserted[|p.inserted| - |p.snapshot.items| + i] == EntryOf(p.snapshot.items[i])
  {
    hide Contiguous, CurrentLast, TurnsClosed, Counts, ReplayOrdered, UniqueIds;
  }

  lemma OrderedLog(p: Projection)
    requires Ordered(p) && p.held.None?
    ensures Contiguous(p.inserted) && CurrentLast(p.inserted, CurrentTurn(p)) && TurnsClosed(p.inserted, Gone(p), CurrentTurn(p))
  {
    hide Contiguous, CurrentLast, TurnsClosed, Counts, ReplayOrdered, UniqueIds, CurrentTurn;
    assert Log(p) == p.inserted;
  }

  /** What an update leaves of the log once its item is gone. */
  lemma PutAgain(p: Projection, item: ActivityItem)
    requires Ordered(p) && p.held.Some? && p.held.value.id != item.id
    requires IndexOf(ShowHeld(p, Some(item.id)).snapshot.items, item.id).None?
    ensures var r := Upsert(p, item);
            && r.inserted == p.inserted + [EntryOf(p.held.value)] + [EntryOf(item)] && r.held.None?
            && CurrentTurn(r) == CurrentTurn(p)
  {
    hide *;
    var q := ShowHeld(p, Some(item.id));
    ShownLog(p, Some(item.id));
    PutParts(q, item);
    NewPut(q, item);
    EnforceParts(PutItem(q, item));
    EnforceInserts(PutItem(q, item));
    SameCurrentTurn(PutItem(q, item), Enforce(PutItem(q, item)));
    UpsertIs(p, item);
  }

  lemma NewPut(p: Projection, item: ActivityItem)
    requires IndexOf(p.snapshot.items, item.id).None?
    ensures PutItem(p, item).inserted == p.inserted + [EntryOf(item)]
    ensures PutItem(p, item).snapshot.items == p.snapshot.items + [item]
  {
    hide CompactSize;
  }

  lemma {:induction false} EnforceInserts(p: Projection)
    ensures Enforce(p).inserted == p.inserted
    decreases |p.snapshot.items|
  {
    hide Evict, GroupOf, OverBounds, CurrentTurn;
    if OverBounds(p) && FirstOutside(p.snapshot.items, CurrentTurn(p)).Some? {
      var items := p.snapshot.items;
      var item := items[FirstOutside(items, CurrentTurn(p)).value];
      EvictParts(p, GroupOf(items, item));
      GroupHasItem(items, item);
      WithoutIsShorter(items, GroupOf(items, item));
      EnforceInserts(Evict(p, GroupOf(items, item)));
    }
  }

  /** A turn that goes on after another was shown in between. */
  lemma TurnTorn(log: seq<Entry>, a: nat, b: nat, c: nat)
    requires a < b < c < |log| && log[a].turn.Some? && log[c].turn == log[a].turn && log[b].turn != log[a].turn
    ensures !Contiguous(log)
  {
  }

  lemma TurnPassed(log: seq<Entry>, a: nat, c: nat, current: Option<string>)
    requires a < c < |log| && current.Some? && log[a].turn == current && log[c].turn != current
    ensures !CurrentLast(log, current)
  {
  }

  lemma LastEntry(p: Projection)
    requires Ordered(p)
    ensures p.snapshot.items != [] ==>
              |p.inserted| > 0 && p.inserted[|p.inserted| - 1] == EntryOf(p.snapshot.items[|p.snapshot.items| - 1])
  {
    hide Contiguous, CurrentLast, TurnsClosed, Counts, ReplayOrdered, UniqueIds;
  }

  /** If the message held back is of the turn that is gone, it is gone too. */
  lemma HeldGoesToo(q: Projection, all: seq<ActivityItem>, a: nat)
    requires Ordered(q) && q.held.None? && IsTail(q.snapshot.items, all) && all != []
    requires a < |q.inserted| - |q.snapshot.items| && q.inserted[a].turn.Some? && |q.snapshot.items| <= |q.inserted|
    requires all[|all| - 1].turnId == q.inserted[a].turn
    ensures q.snapshot.items == []
  {
    hide Contiguous, CurrentLast, Counts, ReplayOrdered, UniqueIds, CurrentTurn;
    OrderedLog(q);
    LastEntry(q);
  }

  lemma OneTurn(log: seq<Entry>, e: Entry, a: nat)
    requires a < |log| && e.turn.Some? && log[a].turn == e.turn
    ensures TurnsIn(log + [e]) == TurnsIn(log)
  {
    assert log[a] in log;
  }

  lemma EvictedAlone(p: Projection, item: ActivityItem)
    requires p.snapshot.items == [item] && item.turnId.Some? && IsOutside(item, CurrentTurn(p)) && OverBounds(p)
    ensures var r := Enforce(p);
            && r.snapshot.items == [] && r.inserted == p.inserted && r.base == p.base
            && r.snapshot.history.truncatedTurns == Some(p.snapshot.history.truncatedTurns.UnwrapOr(0) + 1)
  {
    hide SizeOf, DropItems, CompactSize, OverBounds, CurrentTurn, IsOutside;
    var ids := GroupOf(p.snapshot.items, item);
    AloneInGroup(item);
    EvictParts(p, ids);
    var q := Evict(p, ids);
    EnforceOne(p, item, ids);
    NothingLeft(q);
    AloneTurn(item);
  }

  lemma AloneInGroup(item: ActivityItem)
    requires item.turnId.Some?
    ensures GroupOf([item], item) == [item.id] && Without([item], [item.id]) == []
  {
    assert [item][..0] == [];
    assert IdsOfTurn([item], item.turnId.value) == IdsOfTurn([], item.turnId.value) + [item.id];
    assert Without([item], [item.id]) == Without([], [item.id]) + [];
  }

  lemma AloneTurn(item: ActivityItem)
    requires item.turnId.Some?
    ensures |TurnsOf([item], [item.id])| == 1
  {
    assert TurnsOf([item], [item.id]) == {item.turnId.value};
  }

  lemma EnforceOne(p: Projection, item: ActivityItem, ids: seq<string>)
    requires p.snapshot.items == [item] && IsOutside(item, CurrentTurn(p)) && OverBounds(p)
    requires ids == GroupOf(p.snapshot.items, item)
    ensures Enforce(p) == Enforce(Evict(p, ids))
  {
    hide Evict, GroupOf, OverBounds, CurrentTurn, IsOutside;
    assert FirstOutside(p.snapshot.items, CurrentTurn(p)) == Some(0);
  }

  lemma NothingLeft(p: Projection)
    requires p.snapshot.items == []
    ensures Enforce(p) == p
  {
  }

  lemma HasCounts(p: Projection)
    requires Ordered(p)
    ensures p.snapshot.history.truncatedTurns.UnwrapOr(0)
            == p.base.history.truncatedTurns.UnwrapOr(0) + |TurnsIn(p.inserted[..|p.inserted| - |p.snapshot.items|])|
  {
    hide Contiguous, CurrentLast, TurnsClosed, ReplayOrdered, UniqueIds, TurnsIn;
  }

  /** A turn evicted whole that comes back is either open again or evicted, and
      counted, twice. */
  lemma ComesBack(q: Projection, item: ActivityItem, a: nat)
    requires Ordered(q) && q.held.None? && q.snapshot.items == [] && a < |q.inserted|
    requires item.turnId.Some? && q.inserted[a].turn == item.turnId && item.turnId != CurrentTurn(q)
    ensures !Ordered(Enforce(PutItem(q, item)))
  {
    hide Ordered, Enforce, PutItem, CurrentTurn, OverBounds, TurnsIn, Contiguous, CurrentLast;
    var s := PutItem(q, item);
    NothingKnown(q.snapshot.items, item.id);
    NewPut(q, item);
    PutParts(q, item);
    PutHistory(q, item);
    OneTurn(q.inserted, EntryOf(item), a);
    HasCounts(q);
    assert q.inserted[..|q.inserted|] == q.inserted;
    if OverBounds(s) {
      EvictedAlone(s, item);
      var r := Enforce(s);
      assert r.inserted[..|r.inserted|] == r.inserted;
      if Ordered(r) { HasCounts(r); }
    } else {
      NotOverStays(s);
      if Ordered(s) {
        OrderedLog(s);
        TurnReopened(s.inserted, |q.inserted|, a, CurrentTurn(s));
      }
    }
  }

  lemma TurnReopened(log: seq<Entry>, gone: nat, a: nat, current: Option<string>)
    requires a < gone < |log| && log[a].turn.Some? && log[|log| - 1].turn == log[a].turn
    ensures !TurnsClosed(log, gone, current)
  {
  }

  lemma NothingKnown(items: seq<ActivityItem>, id: string)
    requires items == []
    ensures IndexOf(items, id).None?
  {
  }

  lemma PutHistory(p: Projection, item: ActivityItem)
    ensures PutItem(p, item).snapshot.history == p.snapshot.history
  {
    hide CompactSize;
  }

  /** While a user message is held back, an update of a known item keeps the
      order exactly when the item may rejoin the list. */
  lemma UpdateKeepsOrder(p: Projection, item: ActivityItem)
    requires Ordered(p) && p.held.Some? && p.held.value.id != item.id && IndexOf(p.snapshot.items, item.id).Some?
    requires p.snapshot.items[IndexOf(p.snapshot.items, item.id).value].turnId == item.turnId
    ensures Ordered(Upsert(p, item)) <==> Rejoins(p, IndexOf(p.snapshot.items, item.id).value)
  {
    hide Ordered, Upsert, ShowHeld, CurrentTurn, Stays, TurnShown;
    var i := IndexOf(p.snapshot.items, item.id).value;
    if Rejoins(p, i) {
      UpsertKeeps(p, item);
    } else {
      StaysExactly(p, i);
      PutAgain(p, item);
      EntryAt(p, i);
      var h, a, b := p.held.value, |p.inserted| - |p.snapshot.items| + i, |p.inserted|;
      var log := p.inserted + [EntryOf(h)] + [EntryOf(item)];
      assert log[a] == EntryOf(p.snapshot.items[i]) && log[b] == EntryOf(h) && log[b + 1] == EntryOf(item);
      if item.turnId.None? {
        TurnBefore(p);
        var c :| 0 <= c < |p.inserted| + 1 && (p.inserted + [EntryOf(h)])[c].turn == CurrentTurn(p);
        assert log[c].turn == CurrentTurn(p);
        TurnPassed(log, c, b + 1, CurrentTurn(p));
        NotOrdered(Upsert(p, item));
      } else if h.turnId != item.turnId {
        TurnTorn(log, a, b, b + 1);
        NotOrdered(Upsert(p, item));
      } else {
        SameTurnBack(p, item, i);
      }
    }
  }

  lemma NotOrdered(p: Projection)
    requires p.held.None? && (!Contiguous(p.inserted) || !CurrentLast(p.inserted, CurrentTurn(p)))
    ensures !Ordered(p)
  {
    hide Contiguous, CurrentLast, CurrentTurn;
    assert Log(p) == p.inserted;
  }

  lemma SameTurnBack(p: Projection, item: ActivityItem, i: nat)
    requires Ordered(p) && p.held.Some? && p.held.value.id != item.id && i < |p.snapshot.items|
    requires p.snapshot.items[i].id == item.id && p.snapshot.items[i].turnId == item.turnId == p.held.value.turnId
    requires item.turnId.Some? && item.turnId != CurrentTurn(p) && !Stays(p, i)
    ensures !Ordered(Upsert(p, item))
  {
    hide *;
    var q := ShowHeld(p, Some(item.id));
    var all := p.snapshot.items + [p.held.value];
    TurnIsOutside(p.snapshot.items[i], CurrentTurn(p));
    StaysExactly(p, i);
    ShownLog(p, Some(item.id));
    ShownItems(p, Some(item.id));
    EntryAt(p, i);
    var a := |p.inserted| - |p.snapshot.items| + i;
    NotInTail(q.snapshot.items, all, i);
    TailBound(q.snapshot.items, all);
    assert q.inserted[a] == p.inserted[a];
    EntryTurn(p.snapshot.items[i]);
    HeldGoesToo(q, all, a);
    ComesBack(q, item, a);
    UpsertIs(p, item);
  }

  lemma EntryTurn(item: ActivityItem)
    ensures EntryOf(item).turn == item.turnId
  {
  }

  lemma TurnIsOutside(item: ActivityItem, current: Option<string>)
    requires item.turnId != current
    ensures IsOutside(item, current)
  {
  }

  lemma TailBound(rest: seq<ActivityItem>, items: seq<ActivityItem>)
    requires IsTail(rest, items)
    ensures |rest| <= |items|
  {
  }

  lemma NotInTail(rest: seq<ActivityItem>, items: seq<ActivityItem>, i: nat)
    requires IsTail(rest, items) && i < |items| && IndexOf(rest, items[i].id).None?
    ensures i < |items| - |rest|
  {
    hide *;
    if i >= |items| - |rest| { InLongTail(rest, items, i); }
  }
}
