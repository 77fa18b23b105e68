/** A run whose items do not stay in order: during a replay, an agent's update
    of an item of an earlier turn, while a user message is held back. `upsert`
    first shows that message, which evicts the turn the update is for. */
module LateUpdates {
  import opened Text
  import opened RoutineBlock
  import opened BlockScan
  import opened RoutinePrompt
  import opened DetailText
  import opened UserTexts
  import opened Activity
  import opened Projection
  import opened TurnRetention
  import opened Survival
  import opened ProjectionRuns

  /** A tool call that tells nothing but its id. */
  function CallOf(id: string): ToolUpdate {
    ToolUpdate(id, ToolCall([], [], []), None, None, None, None)
  }

  const CALLED := CallOf("t")

  /** A message, a tool call, and a message that may be the start of a block. */
  const REPLAYED: seq<Action> :=
    [Message(User, Some("a"), "x", [], []), Tool(CALLED), Message(User, Some("b"), "<", [], [])]

  /** Two items, each small. */
  predicate IsTight(r: Retention) {
    r.sessionItems == 2 && 0x4000 <= r.sessionBytes && 1 <= r.itemDetail
  }

  // ----- What is shown and what is held back

  lemma NoStarts(text: string)
    requires |text| == 1
    ensures StripBlock(text, Whole) == text
    ensures text[0] != '<' ==> StripBlock(text, Cut) == text
  {
    hide MatchIndices, CutMarker, OWNER_MARKER;
    OwnerTag();
    NoMatches(text);
    assert BlockStarts(text, false) == [];
    if text[0] != '<' {
      assert text[0..] == text;
      assert BlockStarts(text, true) == [];
    }
  }

  lemma {:induction false} AngleIsCut(length: nat)
    requires 1 <= length < |OWNER_MARKER|
    ensures CutMarker("<", length) == Some(0)
  {
    hide OWNER_MARKER;
    OwnerTag();
    var text := "<";
    if length > 1 {
      AngleIsCut(length - 1);
    } else {
      assert text[|text| - 1..] == OWNER_MARKER[..1];
    }
  }

  lemma AngleStarts()
    ensures BlockStarts("<", true) == [0]
  {
    hide MatchIndices, CutMarker, OWNER_MARKER;
    OwnerTag();
    NoMatches("<");
    AngleIsCut(|OWNER_MARKER| - 1);
    assert [0][1..] == [];
    assert Places("<", [0]) == [0];
    assert MatchIndices("<", OWNER_MARKER) + [0] == [0];
  }

  lemma AngleEnds()
    ensures BlockEnd("<") == Some(Cut)
  {
    AsciiBytes(OWNER_MARKER);
    AsciiBytes("<");
    assert "<" == OWNER_MARKER[..1];
    assert RoutineMarker("<", OWNER_MARKER, IsOwner).Unfinished?;
  }

  lemma AngleIsStripped()
    ensures StripBlock("<", Cut) == ""
  {
    hide BlockStarts, BlockEnd;
    AngleStarts();
    AngleEnds();
    assert "<"[0..] == "<" && "<"[..0] == "";
    assert FirstBlock("<", [0][1..], Whole).None?;
  }

  lemma OneChar(text: string)
    requires |text| == 1 && text[0] as int < 0x80
    ensures Bytes(text) == 1
  {
    AsciiBytes(text);
  }

  // ----- Up to the late update

  ghost predicate IsLogged(items: seq<ActivityItem>, log: seq<Entry>) {
    |items| == |log| && forall i :: 0 <= i < |log| ==> EntryOf(items[i]) == log[i]
  }

  /** The last of `turns` replayed turns. */
  function NameOf(turns: nat): Option<string> {
    if turns == 0 then None else Some(ReplayName(turns))
  }

  /** A replay of `turns` turns that shows what it put, each item small. */
  ghost predicate Replays(p: Projection, log: seq<Entry>, turns: nat) {
    && p.held.None? && !TurnActive(p) && IsTight(p.retention) && p.inserted == log && IsLogged(p.snapshot.items, log)
    && p.replay == Some(ReplayState(turns, NameOf(turns)))
    && p.compactBytes <= |log| * SMALL_ITEM && p.nextLocal == 0
    && p.details.Keys <= {"a"} && p.users.Keys <= {"a"}
  }

  lemma NotThere(items: seq<ActivityItem>, log: seq<Entry>, id: string)
    requires IsLogged(items, log) && forall i :: 0 <= i < |log| ==> log[i].id != id
    ensures IndexOf(items, id).None?
  {
    forall i | 0 <= i < |items| ensures items[i].id != id {
      assert EntryOf(items[i]) == log[i];
    }
  }

  /** Another small item, while there is room for it. */
  lemma PutShows(p: Projection, item: ActivityItem, log: seq<Entry>, turns: nat)
    requires Replays(p, log, turns) && |log| < 2 && CompactSize(item) <= SMALL_ITEM
    requires forall i :: 0 <= i < |log| ==> log[i].id != item.id
    ensures Upsert(p, item) == PutItem(p, item) && Replays(Upsert(p, item), log + [EntryOf(item)], turns)
  {
    hide CompactSize, ReplayName, Enforce, PutItem, IndexOf;
    NothingHeld(p, Some(item.id));
    NotThere(p.snapshot.items, log, item.id);
    NewPut(p, item);
    PutParts(p, item);
    PutSize(p, item);
    UpsertIs(p, item);
    NotOverStays(PutItem(p, item));
  }

  lemma PutSize(p: Projection, item: ActivityItem)
    ensures PutItem(p, item).compactBytes <= p.compactBytes + CompactSize(item)
    ensures PutItem(p, item).details == p.details && PutItem(p, item).users == p.users
  {
    hide CompactSize;
  }

  lemma NameBytes(turns: nat)
    requires turns < 10
    ensures Bytes(ReplayName(turns)) == 8
  {
    assert Decimal(turns) == [Digit(turns)];
    assert Ascii(ReplayName(turns)) && |ReplayName(turns)| == 8;
    AsciiBytes(ReplayName(turns));
  }

  lemma ItemIsSmall(item: ActivityItem, turns: nat)
    requires |item.id| <= 32 && Ascii(item.id) && KindSize(item.kind) == 0 && turns < 10
    requires item.turnId == NameOf(turns) && Bytes(item.summary) <= SUMMARY_LIMIT
    ensures CompactSize(item) <= SMALL_ITEM
  {
    hide ReplayName, KindSize;
    NameBytes(turns);
    AsciiBytes(item.id);
    AsciiBytes("");
  }

  /** A chunk that begins message `id` of a replay. */
  lemma BeginsMessage(p: Projection, log: seq<Entry>, turns: nat, id: string, text: string)
    requires Replays(p, log, turns) && (p.open.None? || p.open.value.0 != User) && id !in p.details && id !in p.users
    requires |text| == 1 && text[0] as int < 0x80
    ensures var action := Message(User, Some(id), text, [], []);
            var q := p.(replay := Some(ReplayState(turns + 1, Some(ReplayName(turns + 1)))), open := Some((User, id)));
            && !Panics(p, action) && CanShow(None, TextBlock(text)) && Replays(q, log, turns + 1)
            && Step(p, action) == PutUserMessage(q, id, None, TextBlock(text), [])
  {
    hide ReplayName, PutUserMessage, Replays, Extend, CanShow, HeadHolds;
    ShowsParts(p, log, turns);
    TextExtended(p, text);
    NextTurnShows(p, log, turns, id);
    assert p.users - {id} == p.users;
  }

  lemma ShowsParts(p: Projection, log: seq<Entry>, turns: nat)
    requires Replays(p, log, turns)
    ensures p.replay.Some? && p.replay.value.turns == turns && IsTight(p.retention)
  {
    hide ReplayName, IsLogged;
  }

  lemma TextExtended(p: Projection, text: string)
    requires IsTight(p.retention) && |text| == 1 && text[0] as int < 0x80
    ensures Extend(None, TextBlock(""), text, p.retention.itemDetail) == (None, TextBlock(text)) && CanShow(None, TextBlock(text))
  {
    hide FirstBlockStart, NewestBudget, HeadEnd, TailStart;
    OneChar(text);
    assert "" + text == text;
  }

  lemma NextTurnShows(p: Projection, log: seq<Entry>, turns: nat, id: string)
    requires Replays(p, log, turns)
    ensures Replays(p.(replay := Some(ReplayState(turns + 1, Some(ReplayName(turns + 1)))), open := Some((User, id))), log, turns + 1)
  {
    hide ReplayName, IsLogged;
  }

  lemma TextItemIs(p: Projection, log: seq<Entry>, turns: nat, id: string, text: string)
    requires Replays(p, log, turns) && 0 < turns && |text| == 1 && text[0] as int < 0x80
    requires forall i :: 0 <= i < |log| ==> log[i].id != id
    ensures var item := TextItem(p, id, UserMessage([]), TextBlock(text));
            && EntryOf(item) == Entry(id, Some(ReplayName(turns))) && item.summary == text && KindSize(item.kind) == 0
            && item.kind == UserMessage([]) && IndexOf(p.snapshot.items, id).None?
  {
    hide ReplayName, IsLogged, IndexOf;
    NotThere(p.snapshot.items, log, id);
    OneChar(text);
    assert Bounded(text, SUMMARY_LIMIT) == text;
  }

  /** A message is shown that begins a turn. */
  lemma MessageShown(p: Projection, log: seq<Entry>)
    requires Replays(p, log, 0) && p.open.None? && p.details == map[] && p.users == map[] && |log| < 2
    requires forall i :: 0 <= i < |log| ==> log[i].id != "a"
    ensures var action := Message(User, Some("a"), "x", [], []);
            !Panics(p, action) && Replays(Step(p, action), log + [Entry("a", Some(ReplayName(1)))], 1)
  {
    hide ReplayName, PutUserMessage, Step, Panics, TextItem, Upsert, KindSize, SetDetail, CompactSize, CanShow, StripBlock;
    BeginsMessage(p, log, 0, "a", "x");
    var q := p.(replay := Some(ReplayState(1, Some(ReplayName(1)))), open := Some((User, "a")));
    NoStarts("x");
    PutsMessage(q, log);
  }

  lemma PutsMessage(p: Projection, log: seq<Entry>)
    requires Replays(p, log, 1) && CanShow(None, TextBlock("x")) && |log| < 2
    requires forall i :: 0 <= i < |log| ==> log[i].id != "a"
    requires StripBlock("x", Whole) == "x" && StripBlock("x", Cut) == "x"
    ensures Replays(PutUserMessage(p, "a", None, TextBlock("x"), []), log + [Entry("a", Some(ReplayName(1)))], 1)
  {
    hide ReplayName, TextItem, Upsert, KindSize, CompactSize, CanShow, StripBlock, IsLogged;
    var item := TextItem(p, "a", UserMessage([]), TextBlock("x"));
    TextItemIs(p, log, 1, "a", "x");
    OneChar("x");
    ItemIsSmall(item, 1);
    var detail := Blocks([TextBlock("x")], BlockSize(TextBlock("x")) + UserSize(None));
    var r := SetDetail(p.(users := p.users["a" := None]), "a", detail).0;
    PutShows(r, item, log, 1);
  }

  /** A tool call is shown in the current turn, or outside turns. */
  lemma ToolShown(p: Projection, log: seq<Entry>, turns: nat, id: string)
    requires Replays(p, log, turns) && turns < 10 && |log| < 2 && |id| <= 32 && Ascii(id)
    requires forall i :: 0 <= i < |log| ==> log[i].id != id
    ensures var q := UpsertTool(p, CallOf(id));
            && Replays(q, log + [Entry(id, NameOf(turns))], turns)
            && q.open.None? && q.details == p.details && q.users == p.users
  {
    hide ReplayName, Upsert, KindSize, CompactSize, IsLogged;
    NotThere(p.snapshot.items, log, id);
    var item := ToolItem(p, CallOf(id));
    AsciiBytes("");
    NoKindSize();
    ItemIsSmall(item, turns);
    PutShows(p.(open := None), item, log, turns);
    OpenStays(p.(open := None), item);
  }

  lemma CalledShown(p: Projection)
    requires Replays(p, [Entry("a", Some(ReplayName(1)))], 1)
    ensures var q := UpsertTool(p, CALLED);
            Replays(q, [Entry("a", Some(ReplayName(1))), Entry("t", Some(ReplayName(1)))], 1) && q.open.None?
  {
    hide ReplayName, UpsertTool, Replays;
    var log := [Entry("a", Some(ReplayName(1)))];
    ToolShown(p, log, 1, "t");
    assert log + [Entry("t", Some(ReplayName(1)))] == [Entry("a", Some(ReplayName(1))), Entry("t", Some(ReplayName(1)))];
  }

  lemma NoKindSize()
    ensures KindSize(ToolCall([], [], [])) == 0
  {
  }

  lemma OpenStays(p: Projection, item: ActivityItem)
    ensures PutItem(p, item).open == p.open && PutItem(p, item).details == p.details && PutItem(p, item).users == p.users
  {
    hide CompactSize;
  }

  /** The second message is held back. */
  lemma SecondHeld(p: Projection, log: seq<Entry>)
    requires Replays(p, log, 1) && p.open.None? && forall i :: 0 <= i < |log| ==> log[i].id != "b"
    ensures var action := Message(User, Some("b"), "<", [], []);
            && !Panics(p, action)
            && var q := Step(p, action);
               && q.held.Some? && EntryOf(q.held.value) == Entry("b", Some(ReplayName(2)))
               && q.inserted == log && IsLogged(q.snapshot.items, log) && q.retention == p.retention
               && CurrentTurn(q) == Some(ReplayName(2))
  {
    hide ReplayName, PutUserMessage, Step, Panics, CanShow, StripBlock, IsLogged;
    BeginsMessage(p, log, 1, "b", "<");
    var q := p.(replay := Some(ReplayState(2, Some(ReplayName(2)))), open := Some((User, "b")));
    NoStarts("<");
    AngleIsStripped();
    PutsSecond(q, log);
  }

  lemma PutsSecond(p: Projection, log: seq<Entry>)
    requires Replays(p, log, 2) && CanShow(None, TextBlock("<")) && forall i :: 0 <= i < |log| ==> log[i].id != "b"
    requires StripBlock("<", Whole) == "<" && StripBlock("<", Cut) == ""
    ensures var q := PutUserMessage(p, "b", None, TextBlock("<"), []);
            && q.held.Some? && EntryOf(q.held.value) == Entry("b", Some(ReplayName(2)))
            && q.inserted == log && IsLogged(q.snapshot.items, log) && q.retention == p.retention
            && CurrentTurn(q) == Some(ReplayName(2))
  {
    hide ReplayName, TextItem, Upsert, KindSize, CanShow, StripBlock, IsLogged;
    TextItemIs(p, log, 2, "b", "<");
  }

  // ----- The late update

  const FIRST: seq<Entry> := [Entry("a", Some(ReplayName(1))), Entry("t", Some(ReplayName(1)))]

  /** Two items of the first turn, and the message of the second held back. */
  ghost predicate HoldsSecond(p: Projection) {
    && p.held.Some? && EntryOf(p.held.value) == Entry("b", Some(ReplayName(2))) && CurrentTurn(p) == Some(ReplayName(2))
    && p.inserted == FIRST && IsLogged(p.snapshot.items, FIRST) && p.retention.sessionItems == 2
  }

  lemma NewShows(connection: Connection, history: HistoryState, writer: WriterState, retention: Retention)
    requires IsTight(retention)
    ensures var p := NewProjection(connection, history, true, writer, retention);
            Replays(p, [], 0) && p.open.None? && p.details == map[] && p.users == map[]
  {
  }

  lemma ToolAllowed(p: Projection, update: ToolUpdate)
    requires p.held.None?
    ensures !Panics(p, Tool(update)) && Allowed(p, Tool(update)) && Step(p, Tool(update)) == UpsertTool(p, update)
  {
    hide UpsertTool, Rejoins;
  }

  lemma UserAllowed(p: Projection, id: string, text: string)
    ensures Allowed(p, Message(User, Some(id), text, [], []))
  {
  }

  lemma HeldNone(p: Projection, log: seq<Entry>, turns: nat)
    requires Replays(p, log, turns)
    ensures p.held.None? && IsTight(p.retention)
  {
  }

  lemma FirstNames(log: seq<Entry>)
    requires log == [Entry("a", Some(ReplayName(1))), Entry("t", Some(ReplayName(1)))]
    ensures forall i :: 0 <= i < |log| ==> log[i].id != "b"
  {
    hide ReplayName;
  }

  /** A run of actions all allowed, so in order, comes to hold the message of
      the second turn back. */
  lemma ReplayedReach(connection: Connection, history: HistoryState, writer: WriterState, retention: Retention)
    requires IsTight(retention)
    ensures var p := NewProjection(connection, history, true, writer, retention);
            AllAllowed(p, REPLAYED) && Run(p, REPLAYED).Some? && HoldsSecond(Run(p, REPLAYED).value)
  {
    hide *;
    var p := NewProjection(connection, history, true, writer, retention);
    var a, b, c := Message(User, Some("a"), "x", [], []), Tool(CALLED), Message(User, Some("b"), "<", [], []);
    NewShows(connection, history, writer, retention);
    MessageShown(p, []);
    assert [] + [Entry("a", Some(ReplayName(1)))] == [Entry("a", Some(ReplayName(1)))];
    var q := Step(p, a);
    HeldNone(q, [Entry("a", Some(ReplayName(1)))], 1);
    ToolAllowed(q, CALLED);
    CalledShown(q);
    var r := Step(q, b);
    FirstNames([Entry("a", Some(ReplayName(1))), Entry("t", Some(ReplayName(1)))]);
    HeldNone(r, [Entry("a", Some(ReplayName(1))), Entry("t", Some(ReplayName(1)))], 1);
    SecondHeld(r, [Entry("a", Some(ReplayName(1))), Entry("t", Some(ReplayName(1)))]);
    UserAllowed(p, "a", "x");
    UserAllowed(r, "b", "<");
    RunOnce(p, a);
    AllowedOnce(p, a);
    RunOnceMore(p, [a], b);
    AllowedMore(p, [a], b);
    assert [a] + [b] == [a, b];
    RunOnceMore(p, [a, b], c);
    AllowedMore(p, [a, b], c);
    assert [a, b] + [c] == [a, b, c];
    ReplayedIs(a, b, c);
    HeldNow(Step(r, c));
  }

  lemma ReplayedIs(a: Action, b: Action, c: Action)
    requires a == Message(User, Some("a"), "x", [], []) && b == Tool(CALLED) && c == Message(User, Some("b"), "<", [], [])
    ensures REPLAYED == [a, b, c]
  {
  }

  lemma HeldNow(p: Projection)
    requires p.held.Some? && EntryOf(p.held.value) == Entry("b", Some(ReplayName(2))) && IsTight(p.retention)
    requires CurrentTurn(p) == Some(ReplayName(2))
    requires p.inserted == [Entry("a", Some(ReplayName(1))), Entry("t", Some(ReplayName(1)))]
    requires IsLogged(p.snapshot.items, [Entry("a", Some(ReplayName(1))), Entry("t", Some(ReplayName(1)))])
    ensures HoldsSecond(p)
  {
    hide ReplayName, CurrentTurn, IsLogged;
  }

  lemma AllowedOnce(p: Projection, action: Action)
    requires Allowed(p, action)
    ensures AllAllowed(p, [action])
  {
    hide Allowed;
    assert [action][..0] == [];
  }

  lemma AllowedMore(p: Projection, actions: seq<Action>, action: Action)
    requires AllAllowed(p, actions) && Run(p, actions).Some? && Allowed(Run(p, actions).value, action)
    ensures AllAllowed(p, actions + [action])
  {
    hide Allowed;
    assert (actions + [action])[..|actions|] == actions;
  }

  // ----- The late update

  /** The tool call is where its turn started, and that turn does not stay. */
  lemma CallIsKnown(p: Projection)
    requires HoldsSecond(p)
    ensures IndexOf(p.snapshot.items, "t") == Some(1) && |p.snapshot.items| == 2 && p.held.value.id == "b"
    ensures p.snapshot.items[1].turnId == Some(ReplayName(1)) != CurrentTurn(p)
    ensures !Stays(p, 1) && !Rejoins(p, 1)
  {
    hide ReplayName, CurrentTurn, CompactSize, SumCompact, TurnShown;
    ReplayNamesDiffer(1, 2);
    var items := p.snapshot.items;
    assert EntryOf(items[0]) == FIRST[0] && EntryOf(items[1]) == FIRST[1];
    assert GroupStart(items, 1) == GroupStart(items, 0) == 0;
  }

  lemma UpdatedCall(p: Projection)
    requires HoldsSecond(p)
    ensures var item := ToolItem(p, CALLED);
            && UpsertTool(p, CALLED) == Upsert(p.(open := None), item) && EntryOf(item) == Entry("t", Some(ReplayName(1)))
            && HoldsSecond(p.(open := None))
  {
    hide ReplayName, Upsert, IsLogged;
    CallIsKnown(p);
  }

  lemma LateUpdate(p: Projection)
    requires Ordered(p) && HoldsSecond(p)
    ensures var q := Step(p, Tool(CALLED));
            && !Ordered(q)
            && q.inserted == FIRST + [Entry("b", Some(ReplayName(2))), Entry("t", Some(ReplayName(1)))]
  {
    hide Ordered, ReplayName, CurrentTurn, Upsert, UpsertTool, ToolItem, Rejoins, Stays, SameOrder, ShowHeld, IsLogged;
    var q := p.(open := None);
    var item := ToolItem(p, CALLED);
    UpdatedCall(p);
    SameButOpen(p);
    CallIsKnown(q);
    UpdateKeepsOrder(q, item);
    TurnIsOutside(q.snapshot.items[1], CurrentTurn(q));
    StaysExactly(q, 1);
    PutAgain(q, item);
    assert FIRST + [EntryOf(q.held.value)] + [EntryOf(item)] == FIRST + [EntryOf(q.held.value), EntryOf(item)];
  }

  lemma SameButOpen(p: Projection)
    requires Ordered(p)
    ensures Ordered(p.(open := None))
  {
    hide Ordered;
    SameOrderKeeps(p, p.(open := None));
  }

  /** The update puts an item of the first turn, evicted by then, after that of
      the second: turns no longer stand together. */
  lemma LateUpdateBreaksOrder(connection: Connection, history: HistoryState, writer: WriterState, retention: Retention)
    requires IsTight(retention)
    ensures var p := NewProjection(connection, history, true, writer, retention);
            var before, after := Run(p, REPLAYED), Run(p, REPLAYED + [Tool(CALLED)]);
            && before.Some? && Ordered(before.value) && after.Some? && !Ordered(after.value)
            && after.value.inserted == FIRST + [Entry("b", Some(ReplayName(2))), Entry("t", Some(ReplayName(1)))]
  {
    hide *;
    var p := NewProjection(connection, history, true, writer, retention);
    ReplayedReach(connection, history, writer, retention);
    RunIsOrdered(connection, history, true, writer, retention, REPLAYED);
    LateUpdate(Run(p, REPLAYED).value);
    ToolSteps(Run(p, REPLAYED).value, CALLED);
    RunOnceMore(p, REPLAYED, Tool(CALLED));
  }
}
