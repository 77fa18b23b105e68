/** Items the runtime puts under ids of its own: exactly when one keeps the
    order, and a run in which an agent took such an id before. */
module RuntimeIds {
  import opened Text
  import opened RoutineBlock
  import opened Activity
  import opened Projection
  import opened TurnRetention
  import opened Survival
  import opened ProjectionRuns
  import opened Timeline
  import opened LateUpdates

  // ----- Exactly when the order is kept

  lemma {:induction false} EnforceShrinks(p: Projection)
    ensures |Enforce(p).snapshot.items| <= |p.snapshot.items|
    decreases |p.snapshot.items|
  {
    hide Evict, GroupOf, OverBounds, CurrentTurn;
    if OverBounds(p) && FirstOutside(p.snapshot.items, CurrentTurn(p)).Some? {
      var items := p.snapshot.items;
      var item := items[FirstOutside(items, CurrentTurn(p)).value];
      EvictParts(p, GroupOf(items, item));
      GroupHasItem(items, item);
      WithoutIsShorter(items, GroupOf(items, item));
      EnforceShrinks(Evict(p, GroupOf(items, item)));
    }
  }

  lemma KnownPut(p: Projection, item: ActivityItem, i: nat)
    requires IndexOf(p.snapshot.items, item.id) == Some(i)
    ensures var q := PutItem(p, item);
            && q.snapshot.items == p.snapshot.items[i := item] && q.inserted == p.inserted
  {
    hide CompactSize;
  }

  /** Where an item put in place of another is, nothing of its id is outside
      the current turn. */
  lemma OnlyOne(p: Projection, q: Projection, item: ActivityItem, i: nat)
    requires UniqueIds(p.snapshot.items) && i < |p.snapshot.items| && p.snapshot.items[i].id == item.id
    requires q.snapshot.items == p.snapshot.items[i := item] && !IsOutside(item, CurrentTurn(q))
    ensures Spared(q, item.id) && item in q.snapshot.items
  {
    hide CurrentTurn, IsOutside;
    assert q.snapshot.items[i] == item;
  }

  /** The log tells the turn an item was inserted under. */
  lemma InsertedUnder(p: Projection, r: Projection, item: ActivityItem, i: nat)
    requires Ordered(p) && Ordered(r) && r.inserted == p.inserted && |r.snapshot.items| <= |p.snapshot.items|
    requires i < |p.snapshot.items| && p.snapshot.items[i].id == item.id && item in r.snapshot.items
    ensures p.snapshot.items[i].turnId == item.turnId
  {
    hide Ordered, UniqueIds;
    var k :| 0 <= k < |r.snapshot.items| && r.snapshot.items[k] == item;
    var j := |p.snapshot.items| - |r.snapshot.items| + k;
    EntryAt(r, k);
    EntryAt(p, j);
    OrderedIsUnique(p);
    OneOfId(p.snapshot.items, i, j);
  }

  /** An item put in the place of one of another turn stays there, since it is
      of the current turn, and the items are no longer those inserted. */
  lemma ReplacedBreaks(p: Projection, item: ActivityItem, i: nat)
    requires Ordered(p) && p.held.None? && IndexOf(p.snapshot.items, item.id) == Some(i)
    requires item.turnId == CurrentTurn(p) && CurrentTurn(p).Some? && p.snapshot.items[i].turnId != item.turnId
    ensures !Ordered(Upsert(p, item))
  {
    hide Ordered, Upsert, PutItem, Enforce, CurrentTurn, IsOutside, Spared, Spares, UniqueIds;
    var q := PutItem(p, item);
    NothingHeld(p, Some(item.id));
    UpsertIs(p, item);
    OrderedIsUnique(p);
    PutParts(p, item);
    KnownPut(p, item, i);
    CurrentIsInside(item, CurrentTurn(p));
    OnlyOne(p, q, item, i);
    EnforceSpares(q, item.id);
    SparesHas(q, Enforce(q), item);
    EnforceInserts(q);
    EnforceShrinks(q);
    if Ordered(Enforce(q)) { InsertedUnder(p, Enforce(q), item, i); }
  }

  /** An item of the current turn keeps the order exactly when none of another
      turn is known by its id, or none will be once the message held back is
      shown. */
  lemma PutKeepsOrder(p: Projection, item: ActivityItem)
    requires Ordered(p) && Apart(p, item.id) && item.turnId == CurrentTurn(p) && CurrentTurn(p).Some?
    ensures Ordered(Upsert(p, item)) <==> IsUnclaimed(p, item.id)
  {
    hide Ordered, Upsert, CurrentTurn, MakesRoom, Fits, Apart;
    if IsUnclaimed(p, item.id) {
      FreeFits(p, item);
      UpsertKeeps(p, item);
    } else {
      var i := IndexOf(p.snapshot.items, item.id).value;
      if p.held.None? {
        ReplacedBreaks(p, item, i);
      } else {
        StillClaimed(p, item, i);
        UpsertSkips(p, item);
        var q := ShowHeld(p, Some(item.id));
        ReplacedBreaks(q, item, IndexOf(q.snapshot.items, item.id).value);
      }
    }
  }

  /** An item of another turn that the message held back leaves is still known
      once that is shown. */
  lemma StillClaimed(p: Projection, item: ActivityItem, i: nat)
    requires Ordered(p) && Apart(p, item.id) && p.held.Some? && IndexOf(p.snapshot.items, item.id) == Some(i)
    requires CurrentTurn(p).Some? && p.snapshot.items[i].turnId != CurrentTurn(p) && !MakesRoom(p, i)
    ensures var q := ShowHeld(p, Some(item.id));
            && Ordered(q) && q.held.None? && CurrentTurn(q) == CurrentTurn(p)
            && match IndexOf(q.snapshot.items, item.id)
               case Some(k) => q.snapshot.items[k].turnId == p.snapshot.items[i].turnId
               case None => false
  {
    hide Ordered, ShowHeld, CurrentTurn, Stays, IsTail, UniqueIds;
    OrderedIsUnique(p);
    StaysExactly(p, i);
    ShownItems(p, Some(item.id));
    TailKnows(ShowHeld(p, Some(item.id)).snapshot.items, p.snapshot.items, p.held.value, item.id);
    ShownLog(p, Some(item.id));
  }

  /** Once the message held back is shown, an item is put as without one. */
  lemma UpsertSkips(p: Projection, item: ActivityItem)
    requires ShowHeld(p, Some(item.id)).held.None?
    ensures Upsert(p, item) == Upsert(ShowHeld(p, Some(item.id)), item)
  {
    hide PutItem, Enforce, ShowHeld;
    var q := ShowHeld(p, Some(item.id));
    NothingHeld(q, Some(item.id));
    UpsertIs(p, item);
    UpsertIs(q, item);
  }

  // ----- A run in which an agent took the id

  const CLAIMED: string := "session:generic:1"

  /** A tool call outside turns under an id of the runtime, and a message that
      begins a turn. */
  const CLAIMS: seq<Action> := [Tool(CallOf(CLAIMED)), Message(User, Some("a"), "x", [], [])]

  lemma ClaimedId()
    ensures |CLAIMED| <= 32 && Ascii(CLAIMED) && CLAIMED != "a"
    ensures "session" + ":" + "generic" + ":" + Decimal(1) == CLAIMED
  {
    assert Decimal(1) == [Digit(1)];
  }

  /** The run is allowed, and the id claimed by an item outside turns while a
      turn is current. */
  lemma ClaimsReach(connection: Connection, history: HistoryState, writer: WriterState, retention: Retention)
    requires IsTight(retention)
    ensures var p := NewProjection(connection, history, true, writer, retention);
            && AllAllowed(p, CLAIMS) && Run(p, CLAIMS).Some?
            && Replays(Run(p, CLAIMS).value, [Entry(CLAIMED, None), Entry("a", Some(ReplayName(1)))], 1)
  {
    hide *;
    var p := NewProjection(connection, history, true, writer, retention);
    var a, b := Tool(CallOf(CLAIMED)), Message(User, Some("a"), "x", [], []);
    ClaimedId();
    NewShows(connection, history, writer, retention);
    HeldNone(p, [], 0);
    ToolAllowed(p, CallOf(CLAIMED));
    ToolShown(p, [], 0, CLAIMED);
    NoName();
    assert [] + [Entry(CLAIMED, None)] == [Entry(CLAIMED, None)];
    var q := Step(p, a);
    MessageShown(q, [Entry(CLAIMED, None)]);
    assert [Entry(CLAIMED, None)] + [Entry("a", Some(ReplayName(1)))] == [Entry(CLAIMED, None), Entry("a", Some(ReplayName(1)))];
    UserAllowed(q, "a", "x");
    RunOnce(p, a);
    AllowedOnce(p, a);
    RunOnceMore(p, [a], b);
    AllowedMore(p, [a], b);
    assert [a] + [b] == [a, b];
    ClaimsAre(a, b);
  }

  lemma NoName()
    ensures NameOf(0) == None
  {
  }

  lemma ClaimsAre(a: Action, b: Action)
    requires a == Tool(CallOf(CLAIMED)) && b == Message(User, Some("a"), "x", [], [])
    ensures CLAIMS == [a, b]
  {
  }

  lemma ClaimedBreaks(p: Projection, what: string)
    requires Ordered(p) && Replays(p, [Entry(CLAIMED, None), Entry("a", Some(ReplayName(1)))], 1)
    ensures !Ordered(Step(p, Other(what)))
  {
    hide Ordered, ReplayName, Upsert, IsLogged, IsUnclaimed, MakesRoom, CLAIMED;
    ClaimedId();
    var q := NextLocalId(p, "session", "generic").0;
    var item := ActivityItem(CLAIMED, CurrentTurn(q), Generic(what), None, "", false);
    CountedInOrder(p, "session", "generic");
    ClaimedElsewhere(q);
    PutKeepsOrder(q, item);
  }

  lemma ClaimedElsewhere(p: Projection)
    requires IsLogged(p.snapshot.items, [Entry(CLAIMED, None), Entry("a", Some(ReplayName(1)))])
    requires CurrentTurn(p).Some? && p.held.None?
    ensures !IsUnclaimed(p, CLAIMED)
  {
    hide ReplayName, CurrentTurn, CLAIMED;
    ClaimedId();
    var items := p.snapshot.items;
    assert EntryOf(items[0]).id == CLAIMED && EntryOf(items[1]).id == "a";
  }

  /** The runtime's next item of that id takes the place of the agent's, under
      the current turn: the items are no longer those inserted. */
  lemma ClaimBreaksOrder(connection: Connection, history: HistoryState, writer: WriterState, retention: Retention,
                         what: string)
    requires IsTight(retention)
    ensures var p := NewProjection(connection, history, true, writer, retention);
            var before, after := Run(p, CLAIMS), Run(p, CLAIMS + [Other(what)]);
            before.Some? && Ordered(before.value) && after.Some? && !Ordered(after.value)
  {
    hide *;
    var p := NewProjection(connection, history, true, writer, retention);
    ClaimsReach(connection, history, writer, retention);
    RunIsOrdered(connection, history, true, writer, retention, CLAIMS);
    ClaimedBreaks(Run(p, CLAIMS).value, what);
    OtherSteps(Run(p, CLAIMS).value, what);
    RunOnceMore(p, CLAIMS, Other(what));
  }

  lemma OtherSteps(p: Projection, what: string)
    ensures !Panics(p, Other(what))
  {
  }
}
