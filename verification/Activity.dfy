/** The activity of a session as consumers see it: the snapshot, the deltas
    that change it, and their delivery. `activity.rs`. */
module Activity {
  import opened Text

  datatype StopReason = EndTurn | MaxTokens | MaxTurnRequests | Refusal | TurnCancelled | TurnError | TurnInterrupted

  datatype InteractionKind = Permission | Question

  datatype InteractionState = Pending | Answered | Cancelled | Expired

  datatype Status = Running | RequiresAction(request: InteractionKind) | Idle(stopReason: Option<StopReason>)

  datatype Phase = NoTurn | InTurn | Cancelling

  /** The current turn, or the last one once it ended. */
  datatype TurnState = TurnState(turnId: Option<string>, phase: Phase, lastOutcome: Option<StopReason>, status: Status)

  datatype HistorySource = Live | Replayed | NoHistory

  datatype HistoryState = HistoryState(source: HistorySource, available: bool,
                                       truncatedItems: Option<nat>, truncatedTurns: Option<nat>)

  datatype Segment =
    | TextSegment(text: string)
    | LinkSegment(uri: string, name: string)
    | ImageSegment(imageUri: Option<string>, imageName: Option<string>)

  datatype MediaSegment = MediaSegment(id: string, name: Option<string>, mimeType: Option<string>,
                                       path: Option<string>, hasData: bool, offset: Option<nat>)

  datatype ItemStatus = ItemPending | InProgress | Completed | Failed

  datatype ItemKind =
    | UserMessage(segments: seq<Segment>)
    | AgentMessage(media: seq<MediaSegment>)
    | Reasoning
    | ToolCall(toolMedia: seq<MediaSegment>, locations: seq<string>, mcpCalls: seq<(string, string)>)
    | ModeChange
    | ConfigChange
    | Plan(entries: seq<string>)
    | Interaction(request: InteractionKind, state: InteractionState, toolCallId: Option<string>,
                  option: Option<string>, declined: bool)
    | TurnOutcome(reason: StopReason)
    | ErrorItem
    | InterruptedItem
    | Generic(what: string)

  datatype ActivityItem = ActivityItem(id: string, turnId: Option<string>, kind: ItemKind,
                                       status: Option<ItemStatus>, summary: string, hasDetail: bool)

  datatype InteractionOption = InteractionOption(id: string, caption: string)

  datatype PendingInteraction = PendingInteraction(id: string, kind: InteractionKind, title: string,
                                                   toolCallId: Option<string>, options: seq<InteractionOption>,
                                                   state: InteractionState)

  datatype Connection = NotConnected | Starting | Ready | Degraded | Closed

  datatype WriterState = NoWriter | AcpWriter | PtyWriter

  datatype Setting = Setting(id: string, currentValue: string)

  datatype Snapshot = Snapshot(seqNo: nat, connection: Connection, turn: TurnState, items: seq<ActivityItem>,
                               pending: Option<PendingInteraction>, history: HistoryState, writer: WriterState,
                               settings: seq<Setting>, commands: seq<string>, usage: Option<nat>, title: Option<string>)

  datatype Change =
    | ItemChange(item: ActivityItem)
    | TurnChange(turn: TurnState)
    | PendingChange(pending: PendingInteraction)
    | HistoryChange(history: HistoryState)
    | Truncated(itemIds: seq<string>, truncatedHistory: HistoryState)
    | ConnectionChange(connection: Connection)
    | WriterChange(writer: WriterState)
    | SettingsChange(settings: seq<Setting>)
    | CommandsChange(commands: seq<string>)
    | UsageChange(usage: nat)
    | TitleChange(title: string)

  datatype Delta = Delta(seqNo: nat, change: Change)

  // ----- Items

  /** The place of the item `id`. */
  function IndexOf(items: seq<ActivityItem>, id: string): (r: Option<nat>)
    ensures r.Some? ==> r.value < |items| && items[r.value].id == id
                        && forall j :: 0 <= j < r.value ==> items[j].id != id
    ensures r.None? ==> forall j :: 0 <= j < |items| ==> items[j].id != id
  {
    if items == [] then None
    else
      match IndexOf(items[..|items| - 1], id)
      case Some(i) => Some(i)
      case None => if items[|items| - 1].id == id then Some(|items| - 1) else None
  }

  function WithItem(items: seq<ActivityItem>, item: ActivityItem): seq<ActivityItem> {
    match IndexOf(items, item.id)
    case Some(i) => items[i := item]
    case None => items + [item]
  }

  /** `items.retain(|item| !ids.contains(&item.id))` */
  function Without(items: seq<ActivityItem>, ids: seq<string>): seq<ActivityItem> {
    if items == [] then []
    else
      Without(items[..|items| - 1], ids) + (if items[|items| - 1].id in ids then [] else [items[|items| - 1]])
  }

  lemma {:induction false} WithoutHas(items: seq<ActivityItem>, ids: seq<string>, item: ActivityItem)
    ensures item in Without(items, ids) <==> item in items && item.id !in ids
  {
    if items != [] { WithoutHas(items[..|items| - 1], ids, item); }
  }

  ghost predicate UniqueIds(items: seq<ActivityItem>) {
    forall i, j :: 0 <= i < j < |items| ==> items[i].id != items[j].id
  }

  // ----- Applying a delta

  function Changed(s: Snapshot, change: Change): Snapshot {
    match change
    case ItemChange(item) => s.(items := WithItem(s.items, item))
    case TurnChange(turn) => s.(turn := turn)
    case PendingChange(pending) => s.(pending := if pending.state == Pending then Some(pending) else None)
    case HistoryChange(history) => s.(history := history)
    case Truncated(ids, history) => s.(items := Without(s.items, ids), history := history)
    case ConnectionChange(connection) => s.(connection := connection)
    case WriterChange(writer) => s.(writer := writer)
    case SettingsChange(settings) => s.(settings := settings)
    case CommandsChange(commands) => s.(commands := commands)
    case UsageChange(usage) => s.(usage := Some(usage))
    case TitleChange(title) => s.(title := Some(title))
  }

  /** `SessionSnapshot::apply`: a delta that is not the next one is refused. */
  function Applied(s: Snapshot, delta: Delta): (Snapshot, bool) {
    if delta.seqNo != s.seqNo + 1 then (s, false)
    else (Changed(s.(seqNo := delta.seqNo), delta.change), true)
  }

  lemma {:induction false} WithoutUnique(items: seq<ActivityItem>, ids: seq<string>)
    requires UniqueIds(items)
    ensures UniqueIds(Without(items, ids))
  {
    if items != [] {
      var before := items[..|items| - 1];
      WithoutUnique(before, ids);
      var rest := Without(before, ids);
      forall i | 0 <= i < |rest| ensures rest[i].id != items[|items| - 1].id {
        assert rest[i] in rest;
        WithoutHas(before, ids, rest[i]);
      }
    }
  }

  lemma AppliedKeepsUnique(s: Snapshot, delta: Delta)
    requires UniqueIds(s.items)
    ensures UniqueIds(Applied(s, delta).0.items)
  {
    match delta.change
    case Truncated(ids, _) => WithoutUnique(s.items, ids);
    case _ =>
  }

  /** What a delta does: out of turn nothing; else an item takes the place of the
      one known by its id, or the last, evicted items go, a request is pending
      until it is resolved, and any other part becomes what the delta says. */
  lemma AppliedTells(s: Snapshot, delta: Delta)
    requires UniqueIds(s.items)
    ensures var (t, done) := Applied(s, delta);
            && (done <==> delta.seqNo == s.seqNo + 1) && (!done ==> t == s)
            && (done ==>
                  var u := t.(seqNo := s.seqNo);
                  && t.seqNo == delta.seqNo
                  && match delta.change
                     case ItemChange(item) =>
                       && u == s.(items := t.items) && PutsInPlace(s.items, t.items, item)
                     case Truncated(ids, history) =>
                       && u == s.(items := t.items, history := history)
                       && forall item :: item in t.items <==> item in s.items && item.id !in ids
                     case PendingChange(request) =>
                       && u == s.(pending := t.pending) && (t.pending.Some? <==> request.state == InteractionState.Pending)
                       && (t.pending.Some? ==> t.pending.value == request)
                     case TurnChange(turn) => u == s.(turn := turn)
                     case HistoryChange(history) => u == s.(history := history)
                     case ConnectionChange(connection) => u == s.(connection := connection)
                     case WriterChange(writer) => u == s.(writer := writer)
                     case SettingsChange(settings) => u == s.(settings := settings)
                     case CommandsChange(commands) => u == s.(commands := commands)
                     case UsageChange(usage) => u == s.(usage := Some(usage))
                     case TitleChange(title) => u == s.(title := Some(title)))
  {
    hide PutsInPlace, WithItem, Without, UniqueIds;
    if delta.seqNo == s.seqNo + 1 {
      match delta.change
      case ItemChange(item) => WithItemPuts(s.items, item);
      case Truncated(ids, _) =>
        forall item ensures item in Without(s.items, ids) <==> item in s.items && item.id !in ids {
          WithoutHas(s.items, ids, item);
        }
      case _ =>
    }
  }

  ghost predicate PutsInPlace(before: seq<ActivityItem>, after: seq<ActivityItem>, item: ActivityItem) {
    && |before| <= |after|
    && (forall j :: 0 <= j < |before| ==> after[j] == if before[j].id == item.id then item else before[j])
    && if exists known :: known in before && known.id == item.id then |after| == |before| else after[|before|..] == [item]
  }

  lemma WithItemPuts(items: seq<ActivityItem>, item: ActivityItem)
    requires UniqueIds(items)
    ensures PutsInPlace(items, WithItem(items, item), item)
  {
    match IndexOf(items, item.id)
    case Some(i) =>
      assert items[i] in items;
      assert forall j :: 0 <= j < |items| && j != i ==> items[j].id != items[i].id;
    case None =>
  }

  // ----- Delivery

  /** Deltas with consecutive numbers after `base`. */
  ghost predicate Consecutive(base: Snapshot, log: seq<Delta>) {
    forall i :: 0 <= i < |log| ==> log[i].seqNo == base.seqNo + i + 1
  }

  /** The runtime's snapshot after the first `n` deltas of its log. */
  function SnapshotAt(base: Snapshot, log: seq<Delta>, n: nat): (s: Snapshot)
    requires n <= |log|
  {
    if n == 0 then base else Applied(SnapshotAt(base, log, n - 1), log[n - 1]).0
  }

  /** What a consumer makes of the deltas that reach it. */
  function Delivered(view: Snapshot, deltas: seq<Delta>): Snapshot {
    if deltas == [] then view
    else Applied(Delivered(view, deltas[..|deltas| - 1]), deltas[|deltas| - 1]).0
  }

  lemma {:induction false} SnapshotNumbers(base: Snapshot, log: seq<Delta>, n: nat)
    requires n <= |log| && Consecutive(base, log)
    ensures SnapshotAt(base, log, n).seqNo == base.seqNo + n
  {
    if n > 0 { SnapshotNumbers(base, log, n - 1); }
  }

  lemma {:induction false} SnapshotsUnique(base: Snapshot, log: seq<Delta>, n: nat)
    requires n <= |log| && UniqueIds(base.items)
    ensures UniqueIds(SnapshotAt(base, log, n).items)
  {
    hide UniqueIds, Applied;
    if n > 0 {
      SnapshotsUnique(base, log, n - 1);
      AppliedKeepsUnique(SnapshotAt(base, log, n - 1), log[n - 1]);
    }
  }

  /** Whatever deltas of the log reach a consumer, and in whatever order, its
      view is always the runtime's snapshot at the number it shows. */
  lemma {:induction false} ViewIsSnapshot(base: Snapshot, log: seq<Delta>, from: nat, deltas: seq<Delta>)
    requires Consecutive(base, log) && from <= |log|
    requires forall d :: d in deltas ==> d in log
    ensures var view := Delivered(SnapshotAt(base, log, from), deltas);
            && base.seqNo + from <= view.seqNo <= base.seqNo + |log|
            && view == SnapshotAt(base, log, view.seqNo - base.seqNo)
  {
    hide Changed;
    SnapshotNumbers(base, log, from);
    if deltas != [] {
      var before, d := deltas[..|deltas| - 1], deltas[|deltas| - 1];
      ViewIsSnapshot(base, log, from, before);
      var view := Delivered(SnapshotAt(base, log, from), before);
      assert d in log;
      var i :| 0 <= i < |log| && log[i] == d;
      SnapshotNumbers(base, log, view.seqNo - base.seqNo);
      if d.seqNo == view.seqNo + 1 { SnapshotNumbers(base, log, i + 1); }
    }
  }

  lemma LastOfSlice(log: seq<Delta>, from: nat, to: nat)
    requires from < to <= |log|
    ensures var s := log[from..to];
            s != [] && s[|s| - 1] == log[to - 1] && s[..|s| - 1] == log[from..to - 1]
  {
  }

  /** A consumer that misses no delta reaches the runtime's snapshot. */
  lemma {:induction false} ViewCatchesUp(base: Snapshot, log: seq<Delta>, from: nat, to: nat)
    requires Consecutive(base, log) && from <= to <= |log|
    ensures Delivered(SnapshotAt(base, log, from), log[from..to]) == SnapshotAt(base, log, to)
  {
    hide Applied, Changed, Consecutive;
    if from < to {
      ViewCatchesUp(base, log, from, to - 1);
      LastOfSlice(log, from, to);
    }
  }

  lemma {:induction false} SnapshotOfPrefix(base: Snapshot, log: seq<Delta>, more: seq<Delta>, n: nat)
    requires n <= |log|
    ensures SnapshotAt(base, log + more, n) == SnapshotAt(base, log, n)
  {
    if n > 0 { SnapshotOfPrefix(base, log, more, n - 1); }
  }

  // ----- A view in place

  /** A consumer's copy of the snapshot. */
  class SessionView {
    var seqNo: nat
    var connection: Connection
    var turn: TurnState
    var items: seq<ActivityItem>
    var pending: Option<PendingInteraction>
    var history: HistoryState
    var writer: WriterState
    var settings: seq<Setting>
    var commands: seq<string>
    var usage: Option<nat>
    var title: Option<string>

    ghost function State(): Snapshot
      reads this
    {
      Snapshot(seqNo, connection, turn, items, pending, history, writer, settings, commands, usage, title)
    }

    constructor (s: Snapshot)
      ensures State() == s
    {
      seqNo, connection, turn, items, pending, history := s.seqNo, s.connection, s.turn, s.items, s.pending, s.history;
      writer, settings, commands, usage, title := s.writer, s.settings, s.commands, s.usage, s.title;
    }

    method Apply(delta: Delta) returns (ok: bool)
      modifies this
      ensures (State(), ok) == Applied(old(State()), delta)
    {
      if delta.seqNo != seqNo + 1 {
        return false;
      }
      seqNo := delta.seqNo;
      match delta.change {
        case ItemChange(item) =>
          match IndexOf(items, item.id) {
            case Some(i) => items := items[i := item];
            case None => items := items + [item];
          }
        case TurnChange(t) => turn := t;
        case PendingChange(p) => pending := if p.state == Pending then Some(p) else None;
        case HistoryChange(h) => history := h;
        case Truncated(ids, h) => items, history := Without(items, ids), h;
        case ConnectionChange(c) => connection := c;
        case WriterChange(w) => writer := w;
        case SettingsChange(s) => settings := s;
        case CommandsChange(c) => commands := c;
        case UsageChange(u) => usage := Some(u);
        case TitleChange(t) => title := Some(t);
      }
      ok := true;
    }
  }
}
