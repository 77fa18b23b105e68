/** The sessions of a process and the one count of the detail they hold, under
    any interleaving of what befalls them. `runtime.rs`. */
module Processes {
  import opened Text
  import opened Activity
  import opened Projection
  import opened ProjectionRuns
  import opened Accounting
  import opened TurnLog
  import opened SessionRuns
  import opened DetailBound

  /** The projections alive, each under a key of its own, and `detail_bytes`. */
  datatype Process = Process(live: map<string, Projection>, total: int)

  /** What befalls the process. `Frees` is one step of enforcing the bound. */
  datatype Deed =
    | Opens(key: string, connection: Connection, history: HistoryState, replay: bool, writer: WriterState,
            retention: Retention)
    | Acts(key: string, action: Action)
    | Frees(key: string, bound: nat)
    | Drops(key: string)

  const NO_SESSIONS := Process(map[], 0)

  /** A session is opened once while it lives, and acts only then; the code does
      not panic. */
  predicate CanDo(p: Process, deed: Deed) {
    match deed
    case Opens(key, _, _, _, _, _) => key !in p.live
    case Acts(key, action) => key in p.live && !Panics(p.live[key], action)
    case Frees(key, _) => key in p.live
    case Drops(key) => key in p.live
  }

  /** `p` with the session of `key` as `q`, which counted its own changes. */
  function Changed(p: Process, key: string, q: Projection): Process
    requires key in p.live
  {
    Process(p.live[key := q], p.total + (q.detailBytes - p.live[key].detailBytes))
  }

  /** One step of enforcing `bound`. */
  function Freed(p: Process, key: string, bound: nat): (q: Process)
    requires key in p.live
    ensures q.live.Keys == p.live.Keys
  {
    if p.total <= bound then p else Changed(p, key, ReleaseDetail(p.live[key], p.total - bound).0)
  }

  function Dropped(p: Process, key: string): Process
    requires key in p.live
  {
    Process(p.live - {key}, p.total - p.live[key].detailBytes)
  }

  function Done(p: Process, deed: Deed): Process
    requires CanDo(p, deed)
  {
    match deed
    case Opens(key, connection, history, replay, writer, retention) =>
      p.(live := p.live[key := NewProjection(connection, history, replay, writer, retention)])
    case Acts(key, action) => Changed(p, key, Step(p.live[key], action))
    case Frees(key, bound) => Freed(p, key, bound)
    case Drops(key) => Dropped(p, key)
  }

  /** The process after `deeds`, none if one of them cannot be done. */
  function AllDone(p: Process, deeds: seq<Deed>): Option<Process> {
    if deeds == [] then Some(p)
    else
      var deed := deeds[|deeds| - 1];
      match AllDone(p, deeds[..|deeds| - 1])
      case Some(before) => if CanDo(before, deed) then Some(Done(before, deed)) else None
      case None => None
  }

  /** What the sessions alive hold: the sizes of their details and media. */
  ghost function HeldBytes(p: Process): nat {
    Total(p.live, DetailTotal)
  }

  /** The count is what the sessions hold, and each session is sound. */
  ghost predicate Balanced(p: Process) {
    p.total == HeldBytes(p) && forall key :: key in p.live ==> Sound(p.live[key])
  }

  lemma ShareIs(p: Projection)
    requires Sound(p)
    ensures p.detailBytes == DetailTotal(p)
  {
    hide Logged, StatusIs, DetailTotal, SumCompact;
  }

  lemma ChangedBalanced(p: Process, key: string, q: Projection)
    requires Balanced(p) && key in p.live && Sound(q)
    ensures Balanced(Changed(p, key, q))
  {
    hide Sound, DetailTotal, Total;
    ShareIs(p.live[key]);
    ShareIs(q);
    TotalPut(p.live, DetailTotal, key, q);
  }

  lemma OpenedBalanced(p: Process, key: string, q: Projection)
    requires Balanced(p) && key !in p.live && Sound(q) && q.detailBytes == 0
    ensures Balanced(p.(live := p.live[key := q]))
  {
    hide Sound, DetailTotal, Total;
    ShareIs(q);
    TotalPut(p.live, DetailTotal, key, q);
  }

  lemma DroppedBalanced(p: Process, key: string)
    requires Balanced(p) && key in p.live
    ensures Balanced(Dropped(p, key))
  {
    hide Sound, DetailTotal, Total;
    ShareIs(p.live[key]);
    TotalLess(p.live, DetailTotal, key);
  }

  /** A session of any run is one whose detail may be released. */
  lemma SoundIsKept(p: Projection)
    requires Sound(p)
    ensures Kept(p)
  {
    hide Accounted, UniqueIds;
    ConsumersCatchUp(p, |p.sent|);
    ConsumersAgree(p, |p.sent|, []);
    assert p.sent[|p.sent|..|p.sent|] == [];
  }

  lemma ReleasedSound(p: Projection, need: nat)
    requires Sound(p)
    ensures Sound(ReleaseDetail(p, need).0)
  {
    hide Sound, ReleaseDetail;
    StepSound(p, Release(need));
  }

  lemma FreedBalanced(p: Process, key: string, bound: nat)
    requires Balanced(p) && key in p.live
    ensures Balanced(Freed(p, key, bound))
  {
    hide Sound, ReleaseDetail, HeldBytes;
    if bound < p.total {
      ReleasedSound(p.live[key], p.total - bound);
      ChangedBalanced(p, key, ReleaseDetail(p.live[key], p.total - bound).0);
    }
  }

  lemma DoneBalanced(p: Process, deed: Deed)
    requires Balanced(p) && CanDo(p, deed)
    ensures Balanced(Done(p, deed))
  {
    hide Sound, Panics, Step, ReleaseDetail, NewProjection, HeldBytes;
    match deed
    case Opens(key, connection, history, replay, writer, retention) =>
      NewIsSound(connection, history, replay, writer, retention);
      NewHoldsNothing(connection, history, replay, writer, retention);
      OpenedBalanced(p, key, NewProjection(connection, history, replay, writer, retention));
    case Acts(key, action) =>
      StepSound(p.live[key], action);
      ChangedBalanced(p, key, Step(p.live[key], action));
    case Frees(key, bound) => FreedBalanced(p, key, bound);
    case Drops(key) => DroppedBalanced(p, key);
  }

  lemma NewHoldsNothing(connection: Connection, history: HistoryState, replay: bool, writer: WriterState, retention: Retention)
    ensures NewProjection(connection, history, replay, writer, retention).detailBytes == 0
  {
  }

  /** Whatever befalls the sessions of a process, in whatever order, the count
      of its detail bytes is what they hold: never negative, and nothing once
      none is left. */
  lemma {:induction false} RunIsBalanced(deeds: seq<Deed>)
    ensures match AllDone(NO_SESSIONS, deeds)
            case Some(p) => Balanced(p) && 0 <= p.total && (p.live == map[] ==> p.total == 0)
            case None => true
  {
    hide CanDo, Done, Sound, DetailTotal;
    if deeds != [] {
      RunIsBalanced(deeds[..|deeds| - 1]);
      match AllDone(NO_SESSIONS, deeds[..|deeds| - 1])
      case Some(before) => if CanDo(before, deeds[|deeds| - 1]) { DoneBalanced(before, deeds[|deeds| - 1]); }
      case None =>
    }
  }

  /** The share of a session is what it holds and within the count: taking it
      off leaves exactly what the others hold. */
  lemma DropTakesItsShare(p: Process, key: string)
    requires Balanced(p) && key in p.live
    ensures var q := Dropped(p, key);
            && 0 <= p.live[key].detailBytes == DetailTotal(p.live[key]) <= p.total
            && 0 <= q.total == p.total - DetailTotal(p.live[key]) == HeldBytes(q)
            && q.live == p.live - {key}
  {
    hide Sound, DetailTotal, Total;
    ShareIs(p.live[key]);
    TotalLess(p.live, DetailTotal, key);
  }

  /** A step of enforcing the bound takes off the count exactly the bytes it
      frees, never below zero, and ends within the bound or with nothing left to
      release in the session; the other sessions and all snapshots stay. */
  lemma FreeingIsExact(p: Process, key: string, bound: nat)
    requires Balanced(p) && key in p.live
    ensures var q := Freed(p, key, bound);
            && 0 <= q.total <= p.total && p.total - q.total == HeldBytes(p) - HeldBytes(q)
            && (q.total <= bound || Exhausted(q.live[key]))
            && q.live[key].snapshot == p.live[key].snapshot
            && (p.total <= bound ==> q == p)
            && forall other :: other in p.live && other != key ==> q.live[other] == p.live[other]
  {
    hide Sound, ReleaseDetail, Exhausted, HeldBytes;
    FreedBalanced(p, key, bound);
    if bound < p.total {
      SoundIsKept(p.live[key]);
      ReleaseDetailFrees(p.live[key], p.total - bound);
    }
  }
}
