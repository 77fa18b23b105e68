/** The turns of a session as its deltas tell them: each is begun, perhaps
    cancelled, and ended once, with an outcome. */
module TurnLog {
  import opened Text
  import opened Activity
  import opened Projection

  /** A turn begins only when none is active. */
  predicate IsBegin(s: Snapshot, turn: TurnState) {
    s.turn.phase == NoTurn && turn.phase == InTurn && turn.turnId.Some? && turn.lastOutcome.None?
  }

  predicate IsCancel(s: Snapshot, turn: TurnState) {
    && s.turn.phase == InTurn && turn.phase == Cancelling
    && turn.turnId == s.turn.turnId && turn.lastOutcome == s.turn.lastOutcome
  }

  /** The active turn ends, with an outcome. */
  predicate IsEnd(s: Snapshot, turn: TurnState) {
    s.turn.phase != NoTurn && turn.phase == NoTurn && turn.turnId == s.turn.turnId && turn.lastOutcome.Some?
  }

  /** Only the status changes. */
  predicate IsRefresh(s: Snapshot, turn: TurnState) {
    turn.turnId == s.turn.turnId && turn.phase == s.turn.phase && turn.lastOutcome == s.turn.lastOutcome
  }

  /** The status says whether a turn is active, what of the user it waits for,
      and how the last one ended. */
  predicate TellsStatus(turn: TurnState, pending: Option<PendingInteraction>) {
    match turn.status
    case Idle(reason) => turn.phase == NoTurn && reason == turn.lastOutcome
    case RequiresAction(kind) => turn.phase != NoTurn && pending.Some? && pending.value.kind == kind
    case Running => turn.phase != NoTurn && pending.None?
  }

  /** A change of the turn from snapshot `s`. */
  predicate IsLegal(s: Snapshot, turn: TurnState) {
    && TellsStatus(turn, s.pending)
    && (IsBegin(s, turn) || IsCancel(s, turn) || IsEnd(s, turn) || IsRefresh(s, turn))
  }

  lemma StatusTells(turn: TurnState, pending: Option<PendingInteraction>)
    ensures TellsStatus(turn, pending) <==> turn.status == StatusOf(turn.phase, turn.lastOutcome, pending)
  {
  }

  /** A log of deltas after `base`, numbered, its turn changes all legal. */
  ghost predicate IsTurnLog(base: Snapshot, log: seq<Delta>) {
    && Consecutive(base, log)
    && forall i :: 0 <= i < |log| && log[i].change.TurnChange? ==> IsLegal(SnapshotAt(base, log, i), log[i].change.turn)
  }

  /** A session before its first turn and item. */
  predicate IsStart(s: Snapshot) {
    s.turn.phase == NoTurn && s.turn.turnId.None? && s.items == []
  }

  /** The snapshot of a session is what its deltas make of its first one. */
  ghost predicate Logged(p: Projection) {
    IsStart(p.base) && IsTurnLog(p.base, p.sent) && p.snapshot == SnapshotAt(p.base, p.sent, |p.sent|)
  }

  lemma LogGrows(base: Snapshot, log: seq<Delta>, delta: Delta)
    requires IsTurnLog(base, log) && Consecutive(base, log + [delta])
    requires delta.change.TurnChange? ==> IsLegal(SnapshotAt(base, log, |log|), delta.change.turn)
    ensures IsTurnLog(base, log + [delta])
    ensures SnapshotAt(base, log + [delta], |log| + 1) == Applied(SnapshotAt(base, log, |log|), delta).0
  {
    hide IsLegal, Applied, Consecutive;
    var more := log + [delta];
    forall i | 0 <= i <= |log| ensures SnapshotAt(base, more, i) == SnapshotAt(base, log, i) {
      SnapshotOfPrefix(base, log, [delta], i);
    }
    forall i | 0 <= i < |more| && more[i].change.TurnChange?
      ensures IsLegal(SnapshotAt(base, more, i), more[i].change.turn) {
      if i < |log| { assert more[i] == log[i]; }
    }
  }

  lemma EmitLogged(p: Projection, change: Change)
    requires Logged(p) && (change.TurnChange? ==> IsLegal(p.snapshot, change.turn))
    ensures Logged(Emit(p, change))
  {
    hide IsLegal, Changed, Consecutive, Applied, SnapshotAt, IsTurnLog;
    OneMore(p, change);
    LogGrows(p.base, p.sent, Delta(p.snapshot.seqNo + 1, change));
  }

  lemma OneMore(p: Projection, change: Change)
    requires Logged(p)
    ensures Consecutive(p.base, Emit(p, change).sent)
  {
    hide IsLegal, Changed, Applied;
    SnapshotNumbers(p.base, p.sent, |p.sent|);
  }

  // ----- What a log tells of each turn

  predicate BeginsAt(base: Snapshot, log: seq<Delta>, i: nat, turnId: string)
    requires i < |log|
  {
    log[i].change.TurnChange? && IsBegin(SnapshotAt(base, log, i), log[i].change.turn)
    && log[i].change.turn.turnId == Some(turnId)
  }

  predicate EndsAt(base: Snapshot, log: seq<Delta>, i: nat)
    requires i < |log|
  {
    log[i].change.TurnChange? && IsEnd(SnapshotAt(base, log, i), log[i].change.turn)
  }

  /** After `n` deltas the turn `turnId` is active since delta `k`: no turn
      began or ended after it. */
  ghost predicate ActiveSince(base: Snapshot, log: seq<Delta>, k: nat, n: nat, turnId: string) {
    && k < n <= |log| && BeginsAt(base, log, k, turnId)
    && (forall i :: k < i < n ==> !EndsAt(base, log, i))
    && (forall i, t :: k < i < n ==> !BeginsAt(base, log, i, t))
  }

  lemma TurnOfStep(base: Snapshot, log: seq<Delta>, n: nat)
    requires n < |log| && IsTurnLog(base, log)
    ensures SnapshotAt(base, log, n + 1).turn
            == if log[n].change.TurnChange? then log[n].change.turn else SnapshotAt(base, log, n).turn
  {
    hide IsLegal;
    SnapshotNumbers(base, log, n);
  }

  /** An active turn was begun, and neither ended nor followed by another. */
  lemma {:induction false} ActiveWasBegun(base: Snapshot, log: seq<Delta>, n: nat) returns (k: nat)
    requires IsTurnLog(base, log) && IsStart(base) && n <= |log|
    requires SnapshotAt(base, log, n).turn.phase != NoTurn
    ensures SnapshotAt(base, log, n).turn.turnId.Some?
    ensures ActiveSince(base, log, k, n, SnapshotAt(base, log, n).turn.turnId.value)
  {
    hide StatusOf, SnapshotAt, Consecutive;
    if n == 0 {
      NoneYet(base, log);
    } else {
      TurnOfStep(base, log, n - 1);
      var before := SnapshotAt(base, log, n - 1);
      if before.turn.phase == NoTurn {
        k := n - 1;
      } else {
        k := ActiveWasBegun(base, log, n - 1);
        GoesOn(base, log, n - 1);
      }
    }
  }

  lemma GoesOn(base: Snapshot, log: seq<Delta>, n: nat)
    requires IsTurnLog(base, log) && n < |log|
    requires SnapshotAt(base, log, n).turn.phase != NoTurn && SnapshotAt(base, log, n + 1).turn.phase != NoTurn
    ensures !EndsAt(base, log, n) && (forall t :: !BeginsAt(base, log, n, t))
    ensures SnapshotAt(base, log, n + 1).turn.turnId == SnapshotAt(base, log, n).turn.turnId
  {
    hide StatusOf, SnapshotAt, Consecutive;
    TurnOfStep(base, log, n);
  }

  lemma NoneYet(base: Snapshot, log: seq<Delta>)
    ensures SnapshotAt(base, log, 0) == base
  {
  }

  /** Each turn that ends was begun, and between its beginning and its end no
      turn began or ended: none ends twice. */
  lemma TurnsEndOnce(base: Snapshot, log: seq<Delta>, j: nat) returns (k: nat)
    requires IsTurnLog(base, log) && IsStart(base) && j < |log| && EndsAt(base, log, j)
    ensures log[j].change.turn.turnId.Some? && log[j].change.turn.lastOutcome.Some?
    ensures ActiveSince(base, log, k, j, log[j].change.turn.turnId.value)
    ensures forall i :: 0 <= i < j && EndsAt(base, log, i) ==> i < k
  {
    hide IsTurnLog, IsBegin, SnapshotAt;
    k := ActiveWasBegun(base, log, j);
    BeginIsNoEnd(base, log, k);
  }

  lemma BeginIsNoEnd(base: Snapshot, log: seq<Delta>, k: nat)
    requires k < |log| && log[k].change.TurnChange? && IsBegin(SnapshotAt(base, log, k), log[k].change.turn)
    ensures !EndsAt(base, log, k)
  {
    hide SnapshotAt;
  }

  /** Between turns, the last one has an outcome. */
  lemma {:induction false} EndedHasOutcome(base: Snapshot, log: seq<Delta>, n: nat)
    requires IsTurnLog(base, log) && n <= |log| && IsStart(base)
    ensures var turn := SnapshotAt(base, log, n).turn;
            turn.phase == NoTurn && turn.turnId.Some? ==> turn.lastOutcome.Some?
  {
    hide StatusOf, SnapshotAt, Consecutive;
    if n == 0 {
      NoneYet(base, log);
    } else {
      EndedHasOutcome(base, log, n - 1);
      TurnOfStep(base, log, n - 1);
    }
  }
}
