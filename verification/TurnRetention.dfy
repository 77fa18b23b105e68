/** Retention of a session's items: whole turns, oldest first, never the
    current one; and what the truncation markers then count. */
module TurnRetention {
  import opened Text
  import opened Activity
  import opened Projection

  // ----- The log of insertions

  function EntryOf(item: ActivityItem): Entry {
    Entry(item.id, item.turnId)
  }

  /** Every item inserted, and the one held back, which is to be the next. */
  function Log(p: Projection): seq<Entry> {
    p.inserted + (match p.held case Some(item) => [EntryOf(item)] case None => [])
  }

  /** How many of the inserted items were evicted. */
  function Gone(p: Projection): int {
    |p.inserted| - |p.snapshot.items|
  }

  /** The items are the last of those inserted. */
  ghost predicate IsSuffix(items: seq<ActivityItem>, inserted: seq<Entry>) {
    && |items| <= |inserted|
    && forall i :: 0 <= i < |items| ==> EntryOf(items[i]) == inserted[|inserted| - |items| + i]
  }

  /** The items of each turn stand together. */
  ghost predicate Contiguous(log: seq<Entry>) {
    forall i, j, k :: 0 <= i < j < k < |log| && log[i].turn.Some? && log[i].turn == log[k].turn ==> log[j].turn == log[i].turn
  }

  /** Nothing of another turn follows an item of the current one. */
  ghost predicate CurrentLast(log: seq<Entry>, current: Option<string>) {
    forall i, j :: 0 <= i < j < |log| && current.Some? && log[i].turn == current ==> log[j].turn == current
  }

  /** No turn with evicted items goes on. */
  ghost predicate TurnsClosed(log: seq<Entry>, gone: int, current: Option<string>) {
    && (forall i, k :: 0 <= i < gone <= k < |log| && log[i].turn.Some? ==> log[i].turn != log[k].turn)
    && (forall i :: 0 <= i < gone && i < |log| && log[i].turn.Some? ==> log[i].turn != current)
  }

  ghost function TurnsIn(log: seq<Entry>): set<string> {
    set e | e in log && e.turn.Some? :: e.turn.value
  }

  /** The markers count the evicted items and the distinct turns among them. */
  ghost predicate Counts(p: Projection)
    requires 0 <= Gone(p) <= |p.inserted|
  {
    var before, now := p.base.history, p.snapshot.history;
    && now.truncatedItems.UnwrapOr(0) == before.truncatedItems.UnwrapOr(0) + Gone(p)
    && now.truncatedTurns.UnwrapOr(0) == before.truncatedTurns.UnwrapOr(0) + |TurnsIn(p.inserted[..Gone(p)])|
  }

  /** A replay has no live turn, and has begun every turn of the log. */
  ghost predicate ReplayOrdered(p: Projection) {
    p.replay.Some? ==>
      && !TurnActive(p)
      && p.replay.value.turn == (if p.replay.value.turns == 0 then None else Some(ReplayName(p.replay.value.turns)))
      && forall t :: t in TurnsIn(Log(p)) ==> exists m :: 1 <= m <= p.replay.value.turns && t == ReplayName(m)
  }

  ghost predicate HeldApart(p: Projection) {
    p.held.Some? ==> p.replay.Some? && IndexOf(p.snapshot.items, p.held.value.id).None?
  }

  ghost predicate Ordered(p: Projection) {
    && UniqueIds(p.snapshot.items)
    && IsSuffix(p.snapshot.items, p.inserted)
    && Contiguous(Log(p)) && CurrentLast(Log(p), CurrentTurn(p)) && TurnsClosed(Log(p), Gone(p), CurrentTurn(p))
    && Counts(p) && ReplayOrdered(p) && HeldApart(p)
    && (TurnActive(p) ==> p.snapshot.turn.turnId.Some?)
  }

  // ----- Steps that leave the order alone

  /** Nothing the order depends on differs. */
  ghost predicate SameOrder(p: Projection, q: Projection) {
    && q.base == p.base && q.inserted == p.inserted && q.held == p.held && q.replay == p.replay
    && q.snapshot.items == p.snapshot.items && q.snapshot.history == p.snapshot.history
    && q.snapshot.turn.turnId == p.snapshot.turn.turnId && (TurnActive(p) <==> TurnActive(q))
    && q.compactBytes == p.compactBytes && q.retention == p.retention
  }

  lemma SameOrderKeeps(p: Projection, q: Projection)
    requires SameOrder(p, q) && Ordered(p)
    ensures Ordered(q) && CurrentTurn(q) == CurrentTurn(p)
  {
  }

  // ----- Putting an item

  lemma {:induction false} IndexIsUnique(items: seq<ActivityItem>, i: nat)
    requires UniqueIds(items) && i < |items|
    ensures IndexOf(items, items[i].id) == Some(i)
  {
  }

  lemma PutKnown(p: Projection, item: ActivityItem)
    requires Ordered(p) && p.held.None?
    requires IndexOf(p.snapshot.items, item.id).Some?
    requires p.snapshot.items[IndexOf(p.snapshot.items, item.id).value].turnId == item.turnId
    ensures Ordered(PutItem(p, item))
  {
    hide Contiguous, CurrentLast, TurnsClosed, TurnsIn, CompactSize, ReplayName;
    var q := PutItem(p, item);
    var i := IndexOf(p.snapshot.items, item.id).value;
    assert q.snapshot.items == p.snapshot.items[i := item];
    assert Log(q) == Log(p);
  }

  lemma AppendEntry(log: seq<Entry>, e: Entry, gone: int, current: Option<string>)
    requires Contiguous(log) && CurrentLast(log, current) && TurnsClosed(log, gone, current)
    requires 0 <= gone <= |log| && e.turn == current
    ensures Contiguous(log + [e]) && CurrentLast(log + [e], current) && TurnsClosed(log + [e], gone, current)
  {
  }

  lemma SuffixAppended(items: seq<ActivityItem>, inserted: seq<Entry>, item: ActivityItem)
    requires IsSuffix(items, inserted)
    ensures IsSuffix(items + [item], inserted + [EntryOf(item)])
  {
  }

  lemma PutNew(p: Projection, item: ActivityItem)
    requires Ordered(p) && p.held.None?
    requires IndexOf(p.snapshot.items, item.id).None? && item.turnId == CurrentTurn(p)
    ensures Ordered(PutItem(p, item))
  {
    hide Contiguous, CurrentLast, TurnsClosed, TurnsIn, IsSuffix, CompactSize, ReplayName;
    var q := PutItem(p, item);
    assert Log(p) == p.inserted && Log(q) == p.inserted + [EntryOf(item)];
    SuffixIsShorter(p.snapshot.items, p.inserted);
    AppendEntry(p.inserted, EntryOf(item), Gone(p), CurrentTurn(p));
    SuffixAppended(p.snapshot.items, p.inserted, item);
    assert q.inserted[..Gone(q)] == p.inserted[..Gone(p)];
    if p.replay.Some? { CurrentIsReplayed(p, EntryOf(item)); }
  }

  lemma AppendApart(log: seq<Entry>, e: Entry, gone: int, current: Option<string>)
    requires Contiguous(log) && CurrentLast(log, current) && TurnsClosed(log, gone, current)
    requires 0 <= gone <= |log| && e.turn.None?
    requires forall i :: 0 <= i < |log| ==> log[i].turn.None? || log[i].turn != current
    ensures Contiguous(log + [e]) && CurrentLast(log + [e], current) && TurnsClosed(log + [e], gone, current)
  {
  }

  /** An item outside any turn may also come while the current turn has none. */
  lemma PutApart(p: Projection, item: ActivityItem)
    requires Ordered(p) && p.held.None? && IndexOf(p.snapshot.items, item.id).None? && item.turnId.None?
    requires forall i :: 0 <= i < |p.inserted| ==> p.inserted[i].turn.None? || p.inserted[i].turn != CurrentTurn(p)
    ensures Ordered(PutItem(p, item))
  {
    hide TurnsIn, IsSuffix, CompactSize, ReplayName, CurrentTurn, Contiguous, CurrentLast, TurnsClosed;
    var q := PutItem(p, item);
    assert Log(p) == p.inserted && Log(q) == p.inserted + [EntryOf(item)];
    SuffixIsShorter(p.snapshot.items, p.inserted);
    SameCurrentTurn(p, q);
    AppendApart(p.inserted, EntryOf(item), Gone(p), CurrentTurn(p));
    SuffixAppended(p.snapshot.items, p.inserted, item);
    assert q.inserted[..Gone(q)] == p.inserted[..Gone(p)];
    NoTurnAdded(p.inserted, EntryOf(item));
  }

  lemma SameCurrentTurn(p: Projection, q: Projection)
    requires q.snapshot.turn == p.snapshot.turn && q.replay == p.replay
    ensures CurrentTurn(q) == CurrentTurn(p)
  {
  }

  lemma NoTurnAdded(log: seq<Entry>, e: Entry)
    requires e.turn.None?
    ensures TurnsIn(log + [e]) == TurnsIn(log)
  {
  }

  lemma SuffixIsShorter(items: seq<ActivityItem>, inserted: seq<Entry>)
    requires IsSuffix(items, inserted)
    ensures |items| <= |inserted|
  {
  }

  lemma CurrentIsReplayed(p: Projection, e: Entry)
    requires ReplayOrdered(p) && p.replay.Some? && p.held.None? && e.turn == CurrentTurn(p)
    ensures forall t :: t in TurnsIn(p.inserted + [e]) ==> exists m :: 1 <= m <= p.replay.value.turns && t == ReplayName(m)
  {
    hide ReplayName;
    var turns := p.replay.value.turns;
    forall t | t in TurnsIn(p.inserted + [e]) ensures exists m :: 1 <= m <= turns && t == ReplayName(m) {
      if t !in TurnsIn(Log(p)) { assert 1 <= turns && t == ReplayName(turns); }
    }
  }

  /** The item held back takes its place at the end of the log. */
  lemma PutHeld(p: Projection)
    requires Ordered(p) && p.held.Some?
    ensures Ordered(PutItem(p.(held := None), p.held.value))
  {
    hide Contiguous, CurrentLast, TurnsClosed, TurnsIn, IsSuffix, CompactSize, ReplayName;
    var item := p.held.value;
    var q := PutItem(p.(held := None), item);
    assert Log(q) == Log(p);
    SuffixIsShorter(p.snapshot.items, p.inserted);
    SuffixAppended(p.snapshot.items, p.inserted, item);
    assert q.inserted[..Gone(q)] == p.inserted[..Gone(p)];
  }

  // ----- Evicting a group

  /** How many of the first items belong to the group of the first. */
  function GroupLength(items: seq<ActivityItem>, turn: string): nat {
    if items == [] || items[0].turnId != Some(turn) then 0 else 1 + GroupLength(items[1..], turn)
  }

  lemma {:induction false} GroupLengthIs(items: seq<ActivityItem>, turn: string)
    ensures var g := GroupLength(items, turn);
            && g <= |items|
            && (forall i :: 0 <= i < g ==> items[i].turnId == Some(turn))
            && (g < |items| ==> items[g].turnId != Some(turn))
  {
    if items != [] && items[0].turnId == Some(turn) { GroupLengthIs(items[1..], turn); }
  }

  function Ids(items: seq<ActivityItem>): (ids: seq<string>)
    ensures |ids| == |items| && forall i :: 0 <= i < |items| ==> ids[i] == items[i].id
  {
    if items == [] then [] else Ids(items[..|items| - 1]) + [items[|items| - 1].id]
  }

  lemma {:induction false} IdsOfPrefix(items: seq<ActivityItem>, turn: string, g: nat)
    requires g <= |items|
    requires forall i :: 0 <= i < |items| ==> (items[i].turnId == Some(turn) <==> i < g)
    ensures IdsOfTurn(items, turn) == Ids(items[..g])
  {
    if items != [] {
      var before := items[..|items| - 1];
      if g == |items| {
        IdsOfPrefix(before, turn, g - 1);
        assert items[..g] == items && before[..g - 1] == before;
      } else {
        IdsOfPrefix(before, turn, g);
        assert before[..g] == items[..g];
      }
    }
  }

  lemma {:induction false} WithoutPrefix(items: seq<ActivityItem>, g: nat)
    requires UniqueIds(items) && g <= |items|
    ensures Without(items, Ids(items[..g])) == items[g..]
  {
    hide UniqueIds, Ids, Without;
    if |items| == g {
      assert items[..g] == items && items[g..] == [];
      WithoutAll(items, Ids(items));
    } else {
      var before, last := items[..|items| - 1], items[|items| - 1];
      SlicesUnique(items, |items| - 1);
      WithoutPrefix(before, g);
      assert before[..g] == items[..g];
      NotAmong(items, g);
      WithoutStep(items, Ids(items[..g]));
      assert items[g..] == before[g..] + [last];
    }
  }

  lemma SlicesUnique(items: seq<ActivityItem>, n: nat)
    requires UniqueIds(items) && n <= |items|
    ensures UniqueIds(items[..n]) && UniqueIds(items[n..])
  {
  }

  lemma WithoutStep(items: seq<ActivityItem>, ids: seq<string>)
    requires items != []
    ensures Without(items, ids) == Without(items[..|items| - 1], ids)
                                   + (if items[|items| - 1].id in ids then [] else [items[|items| - 1]])
  {
  }

  lemma NotAmong(items: seq<ActivityItem>, g: nat)
    requires UniqueIds(items) && g < |items|
    ensures items[|items| - 1].id !in Ids(items[..g])
  {
    hide Ids;
    forall i | 0 <= i < g ensures Ids(items[..g])[i] != items[|items| - 1].id {
      assert items[..g][i] == items[i];
    }
  }

  lemma {:induction false} WithoutAll(items: seq<ActivityItem>, ids: seq<string>)
    requires forall i :: 0 <= i < |items| ==> items[i].id in ids
    ensures Without(items, ids) == []
  {
    if items != [] { WithoutAll(items[..|items| - 1], ids); }
  }

  /** In order, the current turn's items are the last: when the first item is
      one of them, all are. */
  lemma FirstInside(p: Projection, k: nat)
    requires Ordered(p) && p.held.None? && k < |p.snapshot.items|
    ensures IsOutside(p.snapshot.items[0], CurrentTurn(p)) || !IsOutside(p.snapshot.items[k], CurrentTurn(p))
  {
    hide Contiguous, TurnsClosed, Counts, ReplayOrdered, UniqueIds, CurrentTurn;
    var n := |p.inserted| - |p.snapshot.items|;
    assert Log(p) == p.inserted;
    assert EntryOf(p.snapshot.items[0]) == p.inserted[n] && EntryOf(p.snapshot.items[k]) == p.inserted[n + k];
  }

  /** So the oldest item outside the current turn is the oldest of all. */
  lemma OldestIsFirst(p: Projection)
    requires Ordered(p) && p.held.None? && FirstOutside(p.snapshot.items, CurrentTurn(p)).Some?
    ensures FirstOutside(p.snapshot.items, CurrentTurn(p)) == Some(0)
  {
    hide Ordered, CurrentTurn, IsOutside;
    FirstInside(p, FirstOutside(p.snapshot.items, CurrentTurn(p)).value);
  }

  /** The group evicted is the first items, as many as its turn has; a turn
      outside the log's end is gone with them. */
  lemma GroupIsPrefix(p: Projection) returns (g: nat)
    requires Ordered(p) && p.held.None? && p.snapshot.items != [] && IsOutside(p.snapshot.items[0], CurrentTurn(p))
    ensures 0 < g <= |p.snapshot.items|
    ensures var items := p.snapshot.items;
            && GroupOf(items, items[0]) == Ids(items[..g])
            && (forall i :: 0 <= i < g ==> items[i].turnId == items[0].turnId)
            && (items[0].turnId.Some? ==> forall i :: g <= i < |items| ==> items[i].turnId != items[0].turnId)
            && (items[0].turnId.None? ==> g == 1)
  {
    hide TurnsClosed, CurrentLast, Counts, ReplayOrdered, UniqueIds, CurrentTurn;
    var items := p.snapshot.items;
    if items[0].turnId.None? {
      g := 1;
      assert Ids(items[..1]) == [items[0].id];
    } else {
      var turn := items[0].turnId.value;
      g := GroupLength(items, turn);
      GroupLengthIs(items, turn);
      var n := |p.inserted| - |items|;
      assert Log(p) == p.inserted;
      forall i | g <= i < |items| ensures items[i].turnId != Some(turn) {
        assert EntryOf(items[0]) == p.inserted[n];
        assert EntryOf(items[g]) == p.inserted[n + g];
        assert EntryOf(items[i]) == p.inserted[n + i];
      }
      IdsOfPrefix(items, turn, g);
    }
  }

  lemma SuffixDropped(items: seq<ActivityItem>, inserted: seq<Entry>, g: nat)
    requires IsSuffix(items, inserted) && g <= |items|
    ensures IsSuffix(items[g..], inserted)
  {
  }

  /** The group at the front of the items, and what it leaves. */
  ghost predicate IsFrontGroup(log: seq<Entry>, gone: int, g: nat, current: Option<string>) {
    && 0 <= gone < gone + g <= |log|
    && (forall i :: gone <= i < gone + g ==> log[i].turn == log[gone].turn)
    && (log[gone].turn.Some? ==> forall i :: gone + g <= i < |log| ==> log[i].turn != log[gone].turn)
    && (log[gone].turn.Some? ==> log[gone].turn != current)
    && (log[gone].turn.None? ==> g == 1)
  }

  lemma GroupCloses(log: seq<Entry>, gone: int, g: nat, current: Option<string>)
    requires TurnsClosed(log, gone, current) && IsFrontGroup(log, gone, g, current)
    ensures TurnsClosed(log, gone + g, current)
  {
  }

  /** A group adds its turn to those evicted, and no other: its turn is new. */
  lemma GroupTurns(log: seq<Entry>, gone: int, g: nat, current: Option<string>)
    requires TurnsClosed(log, gone, current) && IsFrontGroup(log, gone, g, current)
    ensures |TurnsIn(log[..gone + g])| == |TurnsIn(log[..gone])| + (if log[gone].turn.Some? then 1 else 0)
  {
    var before, after := log[..gone], log[..gone + g];
    if log[gone].turn.Some? {
      var turn := log[gone].turn.value;
      assert after[gone] == log[gone];
      forall t ensures t in TurnsIn(after) <==> t in TurnsIn(before) || t == turn {
        TurnInLog(after, t);
        TurnInLog(before, t);
      }
      assert TurnsIn(after) == TurnsIn(before) + {turn};
      TurnInLog(before, turn);
    } else {
      forall t ensures t in TurnsIn(after) <==> t in TurnsIn(before) {
        TurnInLog(after, t);
        TurnInLog(before, t);
      }
      assert TurnsIn(after) == TurnsIn(before);
    }
  }

  lemma TurnInLog(log: seq<Entry>, t: string)
    ensures t in TurnsIn(log) <==> exists i :: 0 <= i < |log| && log[i].turn == Some(t)
  {
    if t in TurnsIn(log) {
      var e :| e in log && e.turn == Some(t);
    }
    if i :| 0 <= i < |log| && log[i].turn == Some(t) {
      assert log[i] in log;
    }
  }

  lemma FrontGroup(p: Projection, g: nat)
    requires Ordered(p) && p.held.None? && 0 < g <= |p.snapshot.items| && IsOutside(p.snapshot.items[0], CurrentTurn(p))
    requires var items := p.snapshot.items;
             && (forall i :: 0 <= i < g ==> items[i].turnId == items[0].turnId)
             && (items[0].turnId.Some? ==> forall i :: g <= i < |items| ==> items[i].turnId != items[0].turnId)
             && (items[0].turnId.None? ==> g == 1)
    ensures IsFrontGroup(p.inserted, Gone(p), g, CurrentTurn(p))
  {
    hide Contiguous, CurrentLast, TurnsClosed, Counts, ReplayOrdered, UniqueIds, CurrentTurn;
    var items, n := p.snapshot.items, Gone(p);
    forall i | n <= i < |p.inserted| ensures p.inserted[i] == EntryOf(items[i - n]) {
      assert EntryOf(items[i - n]) == p.inserted[|p.inserted| - |items| + (i - n)];
    }
  }

  /** Turns counted when the first `g` items are evicted. */
  lemma TurnsOfFront(items: seq<ActivityItem>, g: nat)
    requires 0 < g <= |items| && UniqueIds(items)
    requires forall i :: 0 <= i < g ==> items[i].turnId == items[0].turnId
    ensures |TurnsOf(items, Ids(items[..g]))| == if items[0].turnId.Some? then 1 else 0
  {
    var ids := Ids(items[..g]);
    forall item | item in items && item.id in ids ensures item.turnId == items[0].turnId {
      var k :| 0 <= k < |ids| && ids[k] == item.id;
      assert items[..g][k].id == item.id;
      var i :| 0 <= i < |items| && items[i] == item;
    }
    if items[0].turnId.Some? {
      assert ids[0] == items[0].id;
      assert items[0] in items && items[0].id in ids;
      assert TurnsOf(items, ids) == {items[0].turnId.value};
    } else {
      assert TurnsOf(items, ids) == {};
    }
  }

  lemma EvictParts(p: Projection, ids: seq<string>)
    ensures var q := Evict(p, ids);
            && q.base == p.base && q.inserted == p.inserted && q.held == p.held && q.replay == p.replay
            && q.retention == p.retention && q.snapshot.turn == p.snapshot.turn && q.nextLocal == p.nextLocal
            && q.snapshot.items == Without(p.snapshot.items, ids) && q.snapshot.history == EvictedHistory(p, ids)
  {
    hide SizeOf, DropItems, EvictedHistory;
    DroppedKeeps(p.(compactBytes := p.compactBytes - SizeOf(p.snapshot.items, ids)), ids);
  }

  /** `rest` is the end of `items`. */
  predicate IsTail(rest: seq<ActivityItem>, items: seq<ActivityItem>) {
    |rest| <= |items| && rest == items[|items| - |rest|..]
  }

  lemma TailOfTail(a: seq<ActivityItem>, b: seq<ActivityItem>, c: seq<ActivityItem>)
    requires IsTail(a, b) && IsTail(b, c)
    ensures IsTail(a, c)
  {
  }

  lemma InTail(rest: seq<ActivityItem>, items: seq<ActivityItem>, item: ActivityItem)
    requires IsTail(rest, items) && item in rest
    ensures item in items
  {
  }

  /** An eviction takes a prefix off the items, keeps the order, and counts
      what it took. */
  lemma EvictKeeps(p: Projection)
    requires Ordered(p) && p.held.None? && p.snapshot.items != [] && IsOutside(p.snapshot.items[0], CurrentTurn(p))
    ensures var q := Evict(p, GroupOf(p.snapshot.items, p.snapshot.items[0]));
            && Ordered(q) && q.held.None? && CurrentTurn(q) == CurrentTurn(p) && q.inserted == p.inserted
            && IsTail(q.snapshot.items, p.snapshot.items) && |q.snapshot.items| < |p.snapshot.items|
  {
    hide Evict, GroupOf, EvictedHistory, TurnsIn, TurnsOf, IsSuffix, Contiguous, CurrentLast, TurnsClosed, UniqueIds, Ids;
    hide Without, IsFrontGroup, IsOutside;
    var items := p.snapshot.items;
    var ids := GroupOf(items, items[0]);
    var q := Evict(p, ids);
    var g := GroupIsPrefix(p);
    EvictParts(p, ids);
    WithoutPrefix(items, g);
    SuffixDropped(items, p.inserted, g);
    SuffixIsShorter(items, p.inserted);
    FrontGroup(p, g);
    assert Log(p) == p.inserted && Log(q) == p.inserted;
    GroupCloses(p.inserted, Gone(p), g, CurrentTurn(p));
    SlicesUnique(items, g);
    EvictCounts(p, q, g);
    EvictStillApart(p, q);
  }

  lemma EvictStillApart(p: Projection, q: Projection)
    requires ReplayOrdered(p) && p.held.None? && q.held.None? && q.replay == p.replay && q.inserted == p.inserted
    requires q.snapshot.turn == p.snapshot.turn
    ensures ReplayOrdered(q) && HeldApart(q)
  {
    hide TurnsIn, ReplayName;
    assert Log(q) == Log(p);
  }

  lemma EvictCounts(p: Projection, q: Projection, g: nat)
    requires UniqueIds(p.snapshot.items) && 0 <= Gone(p) <= |p.inserted| && Counts(p)
    requires 0 < g <= |p.snapshot.items| && q.inserted == p.inserted && q.base == p.base
    requires q.snapshot.items == p.snapshot.items[g..]
    requires IsSuffix(p.snapshot.items, p.inserted)
    requires TurnsClosed(p.inserted, Gone(p), CurrentTurn(p)) && IsFrontGroup(p.inserted, Gone(p), g, CurrentTurn(p))
    requires q.snapshot.history == EvictedHistory(p, Ids(p.snapshot.items[..g]))
    ensures Counts(q)
  {
    hide TurnsIn, TurnsOf, TurnsClosed, Ids, CurrentTurn;
    var items := p.snapshot.items;
    GroupTurns(p.inserted, Gone(p), g, CurrentTurn(p));
    forall i | 0 <= i < g ensures items[i].turnId == items[0].turnId {
      assert EntryOf(items[i]) == p.inserted[Gone(p) + i] && EntryOf(items[0]) == p.inserted[Gone(p)];
    }
    TurnsOfFront(items, g);
    assert EntryOf(items[0]) == p.inserted[Gone(p)];
  }

  /** What enforcing the bounds leaves: a suffix of the items, in order, within
      the bounds unless only items of the current turn are left. */
  ghost predicate Enforced(p: Projection, q: Projection) {
    && Ordered(q) && q.held.None? && CurrentTurn(q) == CurrentTurn(p) && q.inserted == p.inserted
    && IsTail(q.snapshot.items, p.snapshot.items)
    && (OverBounds(q) ==>
          forall i :: 0 <= i < |q.snapshot.items| ==> !IsOutside(q.snapshot.items[i], CurrentTurn(p)))
  }

  lemma {:induction false} EnforceKeeps(p: Projection)
    requires Ordered(p) && p.held.None?
    ensures Enforced(p, Enforce(p))
    decreases |p.snapshot.items|
  {
    hide *;
    if OverBounds(p) && FirstOutside(p.snapshot.items, CurrentTurn(p)).Some? {
      OldestIsFirst(p);
      EvictKeeps(p);
      var q := Evict(p, GroupOf(p.snapshot.items, p.snapshot.items[0]));
      EnforceKeeps(q);
      EnforceStep(p);
      EnforcedThen(p, q, Enforce(q));
    } else {
      NotEnforced(p);
    }
  }

  lemma EnforcedThen(p: Projection, q: Projection, r: Projection)
    requires Enforced(q, r) && CurrentTurn(q) == CurrentTurn(p) && q.inserted == p.inserted
    requires IsTail(q.snapshot.items, p.snapshot.items)
    ensures Enforced(p, r)
  {
    hide Ordered, OverBounds, IsOutside, CurrentTurn, IsTail;
    TailOfTail(r.snapshot.items, q.snapshot.items, p.snapshot.items);
  }

  lemma NotEnforced(p: Projection)
    requires Ordered(p) && p.held.None?
    requires OverBounds(p) ==> FirstOutside(p.snapshot.items, CurrentTurn(p)).None?
    ensures Enforce(p) == p && Enforced(p, p)
  {
    hide Ordered, OverBounds, IsOutside, CurrentTurn;
  }

  lemma EnforceStep(p: Projection)
    requires OverBounds(p) && FirstOutside(p.snapshot.items, CurrentTurn(p)) == Some(0)
    ensures Enforce(p) == Enforce(Evict(p, GroupOf(p.snapshot.items, p.snapshot.items[0])))
  {
    hide Evict, GroupOf, OverBounds;
  }

  // ----- Putting an item within the bounds

  lemma ShowHeldKeeps(p: Projection, except: Option<string>)
    requires Ordered(p)
    ensures var q := ShowHeld(p, except);
            && Ordered(q) && CurrentTurn(q) == CurrentTurn(p) && q.replay == p.replay
            && (p.held.Some? && except == Some(p.held.value.id) ==> q == p)
            && (p.held.None? || except != Some(p.held.value.id) ==> q.held.None?)
  {
    hide Ordered, Enforce, PutItem;
    if p.held.Some? && except != Some(p.held.value.id) {
      PutHeld(p);
      PutParts(p.(held := None), p.held.value);
      EnforceKeeps(PutItem(p.(held := None), p.held.value));
      EnforceParts(PutItem(p.(held := None), p.held.value));
    }
  }

  lemma PutParts(p: Projection, item: ActivityItem)
    ensures var q := PutItem(p, item);
            && q.held == p.held && q.replay == p.replay && q.snapshot.turn == p.snapshot.turn && q.base == p.base
            && q.open == p.open && q.retention == p.retention && CurrentTurn(q) == CurrentTurn(p)
            && q.nextLocal == p.nextLocal
            && q.snapshot.items == WithItem(p.snapshot.items, item) && q.snapshot.pending == p.snapshot.pending
  {
    hide CompactSize;
  }

  lemma {:induction false} EnforceParts(p: Projection)
    ensures var q := Enforce(p);
            && q.held == p.held && q.replay == p.replay && q.snapshot.turn == p.snapshot.turn && q.base == p.base
            && q.retention == p.retention && q.snapshot.pending == p.snapshot.pending && q.nextLocal == p.nextLocal
    decreases |p.snapshot.items|
  {
    hide Evict, GroupOf, OverBounds, CurrentTurn;
    if OverBounds(p) && FirstOutside(p.snapshot.items, CurrentTurn(p)).Some? {
      var items := p.snapshot.items;
      var item := items[FirstOutside(items, CurrentTurn(p)).value];
      var ids := GroupOf(items, item);
      EvictParts(p, ids);
      EvictLeavesPending(p, ids);
      GroupHasItem(items, item);
      WithoutIsShorter(items, ids);
      EnforceParts(Evict(p, ids));
    }
  }

  lemma EvictLeavesPending(p: Projection, ids: seq<string>)
    ensures Evict(p, ids).snapshot.pending == p.snapshot.pending
  {
    hide SizeOf, DropItems, EvictedHistory;
    DroppedKeeps(p.(compactBytes := p.compactBytes - SizeOf(p.snapshot.items, ids)), ids);
  }

  /** The items once the one held back is shown: the same and it, less a prefix. */
  lemma ShownItems(p: Projection, except: Option<string>)
    requires Ordered(p) && p.held.Some? && except != Some(p.held.value.id)
    ensures IsTail(ShowHeld(p, except).snapshot.items, p.snapshot.items + [p.held.value])
  {
    hide *;
    var q := PutItem(p.(held := None), p.held.value);
    PutHeld(p);
    PutParts(p.(held := None), p.held.value);
    EnforceKeeps(q);
    HeldIsNew(p);
    ShowsHeld(p, except);
    EnforcedTail(q);
  }

  lemma ShowsHeld(p: Projection, except: Option<string>)
    requires p.held.Some? && except != Some(p.held.value.id)
    ensures ShowHeld(p, except) == Enforce(PutItem(p.(held := None), p.held.value))
  {
    hide Enforce, PutItem;
  }

  lemma HeldIsNew(p: Projection)
    requires Ordered(p) && p.held.Some?
    ensures WithItem(p.snapshot.items, p.held.value) == p.snapshot.items + [p.held.value]
  {
    hide UniqueIds, IsSuffix, Contiguous, CurrentLast, TurnsClosed, Counts, ReplayOrdered;
  }

  lemma EnforcedTail(p: Projection)
    requires Enforced(p, Enforce(p))
    ensures IsTail(Enforce(p).snapshot.items, p.snapshot.items)
  {
    hide Ordered, OverBounds, IsOutside, CurrentTurn, Enforce, IsTail;
  }

  lemma OrderedIsUnique(p: Projection)
    requires Ordered(p)
    ensures UniqueIds(p.snapshot.items)
  {
  }

  lemma ActiveHasId(p: Projection)
    requires Ordered(p)
    ensures TurnActive(p) ==> p.snapshot.turn.turnId.Some?
  {
  }

  /** An item still in the tail of `items` and `last` is the one known. */
  lemma TailKnows(rest: seq<ActivityItem>, items: seq<ActivityItem>, last: ActivityItem, id: string)
    requires UniqueIds(items) && last.id != id && IsTail(rest, items + [last])
    ensures IndexOf(rest, id).Some? ==>
              IndexOf(items, id).Some? && rest[IndexOf(rest, id).value] == items[IndexOf(items, id).value]
  {
    hide IndexOf, UniqueIds;
    var all := items + [last];
    if IndexOf(rest, id).Some? {
      var i := IndexOf(rest, id).value;
      var k := |all| - |rest| + i;
      assert rest[i] == all[k] && k < |items|;
      IndexIsUnique(items, k);
    }
  }

  lemma NothingHeld(p: Projection, except: Option<string>)
    requires p.held.None?
    ensures ShowHeld(p, except) == p
  {
  }

  lemma UpsertParts(p: Projection, item: ActivityItem)
    ensures var q := Upsert(p, item);
            && q.snapshot.turn == p.snapshot.turn && q.snapshot.pending == p.snapshot.pending
            && q.nextLocal == p.nextLocal && q.retention == p.retention && q.replay == p.replay
  {
    hide ShowHeld, PutItem, Enforce;
    ShownParts(p, Some(item.id));
    PutParts(ShowHeld(p, Some(item.id)), item);
    EnforceParts(PutItem(ShowHeld(p, Some(item.id)), item));
  }

  /** What every step here keeps: the order, the current turn and the replay. */
  ghost predicate Keeps(p: Projection, q: Projection) {
    Ordered(q) && CurrentTurn(q) == CurrentTurn(p) && q.replay == p.replay && q.snapshot.turn == p.snapshot.turn
  }

  lemma ShownParts(p: Projection, except: Option<string>)
    ensures ShowHeld(p, except).snapshot.turn == p.snapshot.turn && ShowHeld(p, except).replay == p.replay
    ensures ShowHeld(p, except).snapshot.pending == p.snapshot.pending
    ensures ShowHeld(p, except).nextLocal == p.nextLocal && ShowHeld(p, except).retention == p.retention
  {
    hide Enforce, PutItem;
    if p.held.Some? && except != Some(p.held.value.id) {
      PutParts(p.(held := None), p.held.value);
      EnforceParts(PutItem(p.(held := None), p.held.value));
    }
  }

  // ----- Turns

  lemma BeginKeeps(p: Projection, turnId: string)
    requires Ordered(p) && !TurnActive(p) && p.replay.None? && turnId !in TurnsIn(Log(p))
    ensures Ordered(SetTurn(p.(open := None), Some(turnId), InTurn, None))
  {
    hide TurnsIn, StatusOf, UniqueIds, Contiguous, IsSuffix;
    var q := SetTurn(p.(open := None), Some(turnId), InTurn, None);
    assert Log(q) == Log(p);
    forall i | 0 <= i < |Log(p)| ensures Log(p)[i].turn != Some(turnId) {
      TurnInLog(Log(p), turnId);
    }
  }

  lemma EndKeeps(p: Projection, turnId: Option<string>, reason: StopReason)
    requires Ordered(p) && TurnActive(p)
    ensures Ordered(SetTurn(p, turnId, NoTurn, Some(reason)))
  {
    hide TurnsIn, StatusOf, UniqueIds, Contiguous, IsSuffix;
    var q := SetTurn(p, turnId, NoTurn, Some(reason));
    assert Log(q) == Log(p);
  }

  lemma SameTurnKeeps(p: Projection, phase: Phase)
    requires Ordered(p) && (phase == NoTurn <==> !TurnActive(p))
    ensures var q := SetTurn(p, p.snapshot.turn.turnId, phase, p.snapshot.turn.lastOutcome);
            Ordered(q) && CurrentTurn(q) == CurrentTurn(p) && q.replay == p.replay && q.held == p.held
  {
    hide StatusOf, Ordered;
    SameOrderKeeps(p, SetTurn(p, p.snapshot.turn.turnId, phase, p.snapshot.turn.lastOutcome));
  }

  lemma RefreshKeeps(p: Projection)
    requires Ordered(p)
    ensures Ordered(RefreshStatus(p)) && CurrentTurn(RefreshStatus(p)) == CurrentTurn(p)
    ensures RefreshStatus(p).replay == p.replay && RefreshStatus(p).held == p.held
    ensures RefreshStatus(p).snapshot.items == p.snapshot.items
  {
    hide StatusOf, Ordered, CurrentTurn;
    if RefreshStatus(p) != p { SameTurnKeeps(p, p.snapshot.turn.phase); }
  }

  /** Replay turns have names of their own. */
  lemma ReplayNamesDiffer(m: nat, n: nat)
    requires m != n
    ensures ReplayName(m) != ReplayName(n)
  {
    DecimalDiffers(m, n);
    assert ReplayName(m)[7..] == Decimal(m) && ReplayName(n)[7..] == Decimal(n);
  }

  lemma DigitDiffers(a: nat, b: nat)
    requires a < 10 && b < 10 && a != b
    ensures Digit(a) != Digit(b)
  {
  }

  lemma {:induction false} DecimalDiffers(m: nat, n: nat)
    requires m != n
    ensures Decimal(m) != Decimal(n)
    decreases m + n
  {
    hide Digit;
    var (a, b) := (Decimal(m), Decimal(n));
    DecimalEnds(m);
    DecimalEnds(n);
    if m % 10 != n % 10 {
      DigitDiffers(m % 10, n % 10);
    } else if m >= 10 && n >= 10 {
      DecimalDiffers(m / 10, n / 10);
    }
  }

  lemma DecimalEnds(n: nat)
    ensures Decimal(n) != "" && Decimal(n)[|Decimal(n)| - 1] == Digit(n % 10)
    ensures n >= 10 ==> Decimal(n)[..|Decimal(n)| - 1] == Decimal(n / 10) && |Decimal(n)| >= 2
    ensures n < 10 ==> |Decimal(n)| == 1
  {
    hide Digit;
    if n >= 10 { DecimalNotEmpty(n / 10); }
  }

  lemma {:induction false} DecimalNotEmpty(n: nat)
    ensures Decimal(n) != ""
  {
  }

  lemma NextReplayKeeps(p: Projection)
    requires Ordered(p) && p.replay.Some?
    ensures Ordered(NextReplayTurn(p)) && NextReplayTurn(p).replay.Some?
  {
    hide TurnsIn, UniqueIds, Contiguous, IsSuffix, ReplayName;
    var q := NextReplayTurn(p);
    var turns := p.replay.value.turns;
    var name := ReplayName(turns + 1);
    assert Log(q) == Log(p) && CurrentTurn(q) == Some(name);
    if name in TurnsIn(Log(p)) {
      var m :| 1 <= m <= turns && name == ReplayName(m);
      ReplayNamesDiffer(m, turns + 1);
    }
    forall i | 0 <= i < |Log(p)| ensures Log(p)[i].turn != Some(name) {
      TurnInLog(Log(p), name);
    }
    forall t | t in TurnsIn(Log(q)) ensures exists m :: 1 <= m <= turns + 1 && t == ReplayName(m) {
      var m :| 1 <= m <= turns && t == ReplayName(m);
    }
  }
}
