/** Releasing detail: within a session the oldest items first, among sessions
    the least recently opened first, and no more than the bound asks for.
    `release_detail` in `projection.rs`, `enforce_detail_bound` in `runtime.rs`. */
module DetailBound {
  import opened Text
  import opened Activity
  import opened Projection
  import opened Accounting

  // ----- One item

  /** The bytes releasing a candidate frees: its media data, and its text
      unless that stays. */
  function Releasable(p: Projection, c: (string, bool)): nat {
    (if !c.1 && c.0 in p.details then DetailSize(p.details[c.0]) else 0) + (if c.0 in p.media then DataSize(p.media[c.0]) else 0)
  }

  /** Nothing held for the item `id` differs. */
  predicate Untouched(p: Projection, q: Projection, id: string) {
    && (id in q.details <==> id in p.details) && (id in p.details ==> q.details[id] == p.details[id])
    && (id in q.media <==> id in p.media) && (id in p.media ==> q.media[id] == p.media[id])
    && (id in q.users <==> id in p.users) && (id in p.users ==> q.users[id] == p.users[id])
  }

  /** The text held for the item `id` does not differ. */
  predicate TextStays(p: Projection, q: Projection, id: string) {
    && (id in q.details <==> id in p.details) && (id in p.details ==> q.details[id] == p.details[id])
    && (id in q.users <==> id in p.users) && (id in p.users ==> q.users[id] == p.users[id])
  }

  lemma ReleaseItemFrees(p: Projection, c: (string, bool))
    requires Accounted(p)
    ensures var (q, freed) := ReleaseItem(p, c.0, c.1);
            && freed == Releasable(p, c) == p.detailBytes - q.detailBytes && Accounted(q)
            && Releasable(q, c) == 0 && q.snapshot == p.snapshot && q.replay == p.replay
            && (c.1 ==> TextStays(p, q, c.0))
            && forall id :: id != c.0 ==> Untouched(p, q, id)
  {
    hide DetailSize, DataSize, Accounted;
    ReleaseItemAccounted(p, c.0, c.1);
    NothingReleased();
    if c.0 in p.media { ReleasedIsNothing(p.media[c.0]); }
  }

  // ----- One session

  function ReleasableSum(p: Projection, candidates: seq<(string, bool)>): nat {
    if candidates == [] then 0 else Releasable(p, candidates[0]) + ReleasableSum(p, candidates[1..])
  }

  ghost predicate DistinctIds(candidates: seq<(string, bool)>) {
    forall i, j :: 0 <= i < j < |candidates| ==> candidates[i].0 != candidates[j].0
  }

  /** `q` is `p` once the first `n` candidates are released, and no more. */
  ghost predicate ReleasedFirst(p: Projection, q: Projection, candidates: seq<(string, bool)>, n: nat) {
    && n <= |candidates| && q.snapshot == p.snapshot && q.replay == p.replay
    && (forall i :: 0 <= i < n ==> Releasable(q, candidates[i]) == 0)
    && (forall i :: 0 <= i < n && candidates[i].1 ==> TextStays(p, q, candidates[i].0))
    && forall id :: (forall i :: 0 <= i < n ==> candidates[i].0 != id) ==> Untouched(p, q, id)
  }

  lemma UntouchedReleasable(p: Projection, q: Projection, c: (string, bool))
    requires Untouched(p, q, c.0)
    ensures Releasable(q, c) == Releasable(p, c)
  {
  }

  lemma {:induction false} UntouchedSum(p: Projection, q: Projection, candidates: seq<(string, bool)>)
    requires forall i :: 0 <= i < |candidates| ==> Untouched(p, q, candidates[i].0)
    ensures ReleasableSum(q, candidates) == ReleasableSum(p, candidates)
  {
    if candidates != [] {
      UntouchedReleasable(p, q, candidates[0]);
      UntouchedSum(p, q, candidates[1..]);
    }
  }

  lemma OneMoreReleased(p: Projection, q: Projection, r: Projection, candidates: seq<(string, bool)>, n: nat)
    requires candidates != [] && DistinctIds(candidates)
    requires q.snapshot == p.snapshot && q.replay == p.replay && Releasable(q, candidates[0]) == 0
    requires candidates[0].1 ==> TextStays(p, q, candidates[0].0)
    requires forall id :: id != candidates[0].0 ==> Untouched(p, q, id)
    requires ReleasedFirst(q, r, candidates[1..], n)
    ensures ReleasedFirst(p, r, candidates, n + 1)
  {
    hide Releasable, Untouched, TextStays;
    var c, rest := candidates[0], candidates[1..];
    Onward(p, q, r, c.0);
    Onward(q, r, r, c.0);
    assert forall i :: 0 <= i < n ==> rest[i].0 != c.0;
    assert Untouched(q, r, c.0);
    UntouchedReleasable(q, r, c);
    forall i | 0 <= i <= n ensures Releasable(r, candidates[i]) == 0 {
      if i > 0 { assert candidates[i] == rest[i - 1]; }
    }
    forall i | 0 <= i <= n && candidates[i].1 ensures TextStays(p, r, candidates[i].0) {
      if i > 0 {
        assert candidates[i] == rest[i - 1] && candidates[i].0 != c.0;
        assert Untouched(p, q, candidates[i].0);
        Onward(p, q, r, candidates[i].0);
      } else {
        Onward(p, q, r, c.0);
      }
    }
    forall id | forall i :: 0 <= i <= n ==> candidates[i].0 != id ensures Untouched(p, r, id) {
      assert candidates[0].0 != id;
      forall i | 0 <= i < n ensures rest[i].0 != id {
        assert rest[i] == candidates[i + 1];
      }
      assert Untouched(p, q, id) && Untouched(q, r, id);
      Onward(p, q, r, id);
    }
  }

  lemma Onward(p: Projection, q: Projection, r: Projection, id: string)
    ensures Untouched(p, q, id) && Untouched(q, r, id) ==> Untouched(p, r, id)
    ensures TextStays(p, q, id) && TextStays(q, r, id) ==> TextStays(p, r, id)
    ensures Untouched(p, q, id) ==> TextStays(p, q, id)
  {
  }

  /** Candidates are released one by one until enough is freed: the first `n`
      of them, all if less than `need` is freed, and never one more than
      needed. What is freed is what they held. */
  lemma {:induction false} ReleaseIsInOrder(p: Projection, candidates: seq<(string, bool)>, need: nat, freed: nat)
      returns (n: nat)
    requires Accounted(p) && DistinctIds(candidates)
    ensures var (q, total) := ReleaseEach(p, candidates, need, freed);
            && ReleasedFirst(p, q, candidates, n)
            && Accounted(q) && total - freed == p.detailBytes - q.detailBytes == ReleasableSum(p, candidates[..n])
            && (total < need ==> n == |candidates|)
            && (n > 0 ==> freed + ReleasableSum(p, candidates[..n - 1]) < need)
    decreases |candidates|
  {
    hide Accounted, ReleaseItem, Releasable, ReleasedFirst, Untouched, TextStays;
    if candidates == [] || freed >= need {
      n := 0;
      NoneReleased(p, candidates);
    } else {
      var c, rest := candidates[0], candidates[1..];
      var (q, more) := ReleaseItem(p, c.0, c.1);
      ReleaseItemFrees(p, c);
      var m := ReleaseIsInOrder(q, rest, need, freed + more);
      n := m + 1;
      ReleasedIsWithin(q, ReleaseEach(q, rest, need, freed + more).0, rest, m);
      OneMoreReleased(p, q, ReleaseEach(q, rest, need, freed + more).0, candidates, m);
      SumsAgree(p, q, candidates, m);
      if m > 0 { SumsAgree(p, q, candidates, m - 1); }
    }
  }

  lemma ReleasedIsWithin(p: Projection, q: Projection, candidates: seq<(string, bool)>, n: nat)
    requires ReleasedFirst(p, q, candidates, n)
    ensures n <= |candidates|
  {
  }

  lemma NoneReleased(p: Projection, candidates: seq<(string, bool)>)
    ensures ReleasedFirst(p, p, candidates, 0)
  {
  }

  lemma SumsAgree(p: Projection, q: Projection, candidates: seq<(string, bool)>, m: nat)
    requires candidates != [] && DistinctIds(candidates) && m < |candidates|
    requires forall id :: id != candidates[0].0 ==> Untouched(p, q, id)
    ensures ReleasableSum(p, candidates[..m + 1]) == Releasable(p, candidates[0]) + ReleasableSum(q, candidates[1..][..m])
  {
    hide Releasable, Untouched;
    var rest := candidates[1..][..m];
    assert candidates[..m + 1][1..] == rest;
    forall i | 0 <= i < m ensures rest[i].0 != candidates[0].0 {
      assert rest[i] == candidates[i + 1];
    }
    UntouchedSum(p, q, rest);
  }

  /** Candidates are the items outside the current turn, in order; the text of
      agent messages stays. */
  lemma {:induction false} CandidatesAre(items: seq<ActivityItem>, current: Option<string>)
    requires UniqueIds(items)
    ensures DistinctIds(Candidates(items, current))
    ensures forall c :: c in Candidates(items, current) <==>
              exists item :: item in items && (current.None? || item.turnId != current) && c == (item.id, item.kind.AgentMessage?)
  {
    if items != [] {
      var n := |items| - 1;
      CandidatesAre(items[..n], current);
      var before := Candidates(items[..n], current);
      forall i | 0 <= i < |before| ensures before[i].0 != items[n].id {
        assert before[i] in before;
        var item :| item in items[..n] && before[i] == (item.id, item.kind.AgentMessage?);
      }
    }
  }

  /** Nothing of a session is left to release. */
  ghost predicate Exhausted(p: Projection) {
    forall c :: c in Candidates(p.snapshot.items, CurrentTurn(p)) ==> Releasable(p, c) == 0
  }

  /** Releasing detail frees what it says, stays clear of the current turn and
      of agent messages' text, and if it frees less than asked, nothing is left
      to release. */
  lemma ReleaseDetailFrees(p: Projection, need: nat)
    requires Accounted(p) && UniqueIds(p.snapshot.items)
    ensures var (q, freed) := ReleaseDetail(p, need);
            && Accounted(q) && q.snapshot == p.snapshot && freed == p.detailBytes - q.detailBytes
            && (freed < need ==> Exhausted(q))
            && forall item :: item in p.snapshot.items ==>
                 && (CurrentTurn(p).Some? && item.turnId == CurrentTurn(p) ==> Untouched(p, q, item.id))
                 && (item.kind.AgentMessage? ==> TextStays(p, q, item.id))
  {
    hide Accounted, ReleaseEach, Releasable, Untouched, TextStays, CurrentTurn, UniqueIds, Candidates;
    var items, current := p.snapshot.items, CurrentTurn(p);
    var candidates := Candidates(items, current);
    CandidatesAre(items, current);
    var n := ReleaseIsInOrder(p, candidates, need, 0);
    var q := ReleaseEach(p, candidates, need, 0).0;
    SameCurrent(p, q);
    forall item | item in items
      ensures current.Some? && item.turnId == current ==> Untouched(p, q, item.id)
      ensures item.kind.AgentMessage? ==> TextStays(p, q, item.id)
    {
      ItemKept(p, q, n, item);
    }
  }

  lemma SameCurrent(p: Projection, q: Projection)
    requires q.snapshot == p.snapshot && q.replay == p.replay
    ensures CurrentTurn(q) == CurrentTurn(p)
  {
  }

  lemma SameId(items: seq<ActivityItem>, a: ActivityItem, b: ActivityItem)
    requires UniqueIds(items) && a in items && b in items && a.id == b.id
    ensures a == b
  {
  }

  lemma ItemKept(p: Projection, q: Projection, n: nat, item: ActivityItem)
    requires UniqueIds(p.snapshot.items) && item in p.snapshot.items
    requires ReleasedFirst(p, q, Candidates(p.snapshot.items, CurrentTurn(p)), n)
    ensures CurrentTurn(p).Some? && item.turnId == CurrentTurn(p) ==> Untouched(p, q, item.id)
    ensures item.kind.AgentMessage? ==> TextStays(p, q, item.id)
  {
    hide Releasable, CurrentTurn, UniqueIds, Candidates;
    var candidates := Candidates(p.snapshot.items, CurrentTurn(p));
    CandidatesAre(p.snapshot.items, CurrentTurn(p));
    if i :| 0 <= i < n && candidates[i].0 == item.id {
      assert candidates[i] in candidates;
      var other :| other in p.snapshot.items && (CurrentTurn(p).None? || other.turnId != CurrentTurn(p))
                   && candidates[i] == (other.id, other.kind.AgentMessage?);
      SameId(p.snapshot.items, other, item);
    } else {
      Onward(p, q, q, item.id);
    }
  }

  // ----- Oldest first, and no more than needed

  /** The item at `i` is not of the current turn. */
  predicate MayRelease(p: Projection, i: nat)
    requires i < |p.snapshot.items|
  {
    CurrentTurn(p).None? || p.snapshot.items[i].turnId != CurrentTurn(p)
  }

  /** The bytes releasing the item at `i` frees. */
  function ReleasableAt(p: Projection, i: nat): nat
    requires i < |p.snapshot.items|
  {
    Releasable(p, (p.snapshot.items[i].id, p.snapshot.items[i].kind.AgentMessage?))
  }

  /** `places` are those of the items of `candidates`, in order, and of no others
      that may be released. */
  ghost predicate ArePlaces(p: Projection, items: seq<ActivityItem>, candidates: seq<(string, bool)>, places: seq<nat>) {
    && |places| == |candidates|
    && (forall k :: 0 <= k < |places| ==>
          places[k] < |items| && (CurrentTurn(p).None? || items[places[k]].turnId != CurrentTurn(p))
          && candidates[k] == (items[places[k]].id, items[places[k]].kind.AgentMessage?))
    && (forall k, m :: 0 <= k < m < |places| ==> places[k] < places[m])
    && (forall i :: 0 <= i < |items| && (CurrentTurn(p).None? || items[i].turnId != CurrentTurn(p)) ==> i in places)
  }

  lemma {:induction false} PlacesOf(p: Projection, items: seq<ActivityItem>) returns (places: seq<nat>)
    ensures ArePlaces(p, items, Candidates(items, CurrentTurn(p)), places)
  {
    hide CurrentTurn;
    if items == [] {
      places := [];
    } else {
      var n := |items| - 1;
      places := PlacesOf(p, items[..n]);
      if CurrentTurn(p).None? || items[n].turnId != CurrentTurn(p) { places := places + [n]; }
    }
  }

  /** The candidate at place `i`. */
  lemma PlaceOf(p: Projection, candidates: seq<(string, bool)>, places: seq<nat>, i: nat) returns (k: nat)
    requires ArePlaces(p, p.snapshot.items, candidates, places) && i < |p.snapshot.items| && MayRelease(p, i)
    ensures k < |places| && places[k] == i && candidates[k] == (p.snapshot.items[i].id, p.snapshot.items[i].kind.AgentMessage?)
  {
    hide CurrentTurn;
    assert i in places;
    k :| 0 <= k < |places| && places[k] == i;
  }

  /** What is not among the first `n` candidates stays. */
  lemma StaysUnasked(p: Projection, q: Projection, candidates: seq<(string, bool)>, places: seq<nat>, n: nat, i: nat)
    requires ArePlaces(p, p.snapshot.items, candidates, places) && UniqueIds(p.snapshot.items)
    requires ReleasedFirst(p, q, candidates, n) && i < |p.snapshot.items|
    requires forall k :: 0 <= k < n && k < |places| ==> places[k] != i
    ensures Untouched(p, q, p.snapshot.items[i].id)
  {
    hide CurrentTurn, Releasable, Untouched, TextStays, UniqueIds;
    forall k | 0 <= k < n ensures candidates[k].0 != p.snapshot.items[i].id {
      DifferentIds(p.snapshot.items, places[k], i);
    }
  }

  lemma DifferentIds(items: seq<ActivityItem>, i: nat, j: nat)
    requires UniqueIds(items) && i < |items| && j < |items| && i != j
    ensures items[i].id != items[j].id
  {
  }

  /** Detail goes oldest item first: when an item loses any, every earlier one
      outside the current turn has none left to release. And no more goes than
      needed: without the last item that lost any, too little were freed. */
  lemma ReleaseIsOldestFirst(p: Projection, need: nat)
    requires Kept(p)
    ensures var (q, freed) := ReleaseDetail(p, need);
            var items := p.snapshot.items;
            && q.snapshot == p.snapshot
            && (forall i, j :: 0 <= i < j < |items| && MayRelease(p, i) && !Untouched(p, q, items[j].id) ==>
                  ReleasableAt(q, i) == 0)
            && (freed > 0 ==> exists j :: 0 <= j < |items| && LastReleased(p, q, freed, need, j))
  {
    hide Accounted, UniqueIds, CurrentTurn, ReleaseEach, Candidates, Releasable, Untouched, TextStays, ReleasedFirst;
    hide DistinctIds, ArePlaces, MayRelease;
    var items := p.snapshot.items;
    var candidates := Candidates(items, CurrentTurn(p));
    CandidatesAre(items, CurrentTurn(p));
    var places := PlacesOf(p, items);
    var n := ReleaseIsInOrder(p, candidates, need, 0);
    var (q, freed) := ReleaseEach(p, candidates, need, 0);
    SameSnapshot(p, q, candidates, n);
    forall i, j | 0 <= i < j < |items| && MayRelease(p, i) && !Untouched(p, q, items[j].id) ensures ReleasableAt(q, i) == 0 {
      EarlierReleased(p, q, candidates, places, n, i, j);
    }
    if freed > 0 { LastOfReleased(p, q, candidates, places, n, need, freed); }
  }

  /** The item at `j` was the last to lose detail: those after it stay or had
      none, and without it too little was freed. */
  ghost predicate LastReleased(p: Projection, q: Projection, freed: nat, need: nat, j: nat)
    requires j < |p.snapshot.items|
  {
    && MayRelease(p, j) && ReleasableAt(p, j) > 0 && !Untouched(p, q, p.snapshot.items[j].id)
    && freed - ReleasableAt(p, j) < need
    && forall k :: j < k < |p.snapshot.items| ==> Untouched(p, q, p.snapshot.items[k].id) || ReleasableAt(p, k) == 0
  }

  lemma SameSnapshot(p: Projection, q: Projection, candidates: seq<(string, bool)>, n: nat)
    requires ReleasedFirst(p, q, candidates, n)
    ensures q.snapshot == p.snapshot && n <= |candidates|
  {
    hide Releasable, Untouched, TextStays;
  }

  lemma EarlierReleased(p: Projection, q: Projection, candidates: seq<(string, bool)>, places: seq<nat>, n: nat, i: nat, j: nat)
    requires ArePlaces(p, p.snapshot.items, candidates, places) && UniqueIds(p.snapshot.items)
    requires ReleasedFirst(p, q, candidates, n) && i < j < |p.snapshot.items| && MayRelease(p, i)
    requires !Untouched(p, q, p.snapshot.items[j].id) && q.snapshot == p.snapshot
    ensures ReleasableAt(q, i) == 0
  {
    hide CurrentTurn, Releasable, Untouched, TextStays, UniqueIds, MayRelease;
    var k := PlaceOf(p, candidates, places, i);
    if k >= n {
      forall m | 0 <= m < n && m < |places| ensures places[m] != j {
        assert places[m] < places[k];
      }
      StaysUnasked(p, q, candidates, places, n, j);
    }
  }

  lemma LastOfReleased(p: Projection, q: Projection, candidates: seq<(string, bool)>, places: seq<nat>, n: nat, need: nat, freed: nat)
    requires ArePlaces(p, p.snapshot.items, candidates, places) && UniqueIds(p.snapshot.items)
    requires ReleasedFirst(p, q, candidates, n) && freed > 0 && n <= |candidates|
    requires freed == ReleasableSum(p, candidates[..n])
    requires n > 0 ==> ReleasableSum(p, candidates[..n - 1]) < need
    ensures exists j :: 0 <= j < |p.snapshot.items| && LastReleased(p, q, freed, need, j)
  {
    hide CurrentTurn, Releasable, Untouched, TextStays, UniqueIds;
    var m := LastLosing(p, candidates, n);
    var j := places[m];
    LosesDetail(p, q, candidates[m]);
    forall k | j < k < |p.snapshot.items| ensures Untouched(p, q, p.snapshot.items[k].id) || ReleasableAt(p, k) == 0 {
      if ReleasableAt(p, k) > 0 {
        forall t | 0 <= t < n && t < |places| ensures places[t] != k {
          assert t < m ==> places[t] < places[m];
        }
        StaysUnasked(p, q, candidates, places, n, k);
      }
    }
    assert LastReleased(p, q, freed, need, j);
  }

  lemma LosesDetail(p: Projection, q: Projection, c: (string, bool))
    requires Releasable(p, c) > 0 && Releasable(q, c) == 0
    ensures !Untouched(p, q, c.0)
  {
    if Untouched(p, q, c.0) { UntouchedReleasable(p, q, c); }
  }

  /** The last of the first `n` candidates that holds anything. */
  lemma {:induction false} LastLosing(p: Projection, candidates: seq<(string, bool)>, n: nat) returns (m: nat)
    requires n <= |candidates| && ReleasableSum(p, candidates[..n]) > 0
    ensures m < n && Releasable(p, candidates[m]) > 0 && forall k :: m < k < n ==> Releasable(p, candidates[k]) == 0
    ensures ReleasableSum(p, candidates[..n]) - Releasable(p, candidates[m]) <= ReleasableSum(p, candidates[..n - 1])
  {
    hide Releasable;
    if n == 0 { NothingFreed(p, candidates); }
    SumOfFirst(p, candidates, n);
    m := n - 1;
    if Releasable(p, candidates[m]) == 0 { m := LastLosing(p, candidates, n - 1); }
  }

  lemma NothingFreed(p: Projection, candidates: seq<(string, bool)>)
    ensures ReleasableSum(p, candidates[..0]) == 0
  {
  }

  lemma {:induction false} SumOfFirst(p: Projection, candidates: seq<(string, bool)>, n: nat)
    requires 0 < n <= |candidates|
    ensures ReleasableSum(p, candidates[..n]) == ReleasableSum(p, candidates[..n - 1]) + Releasable(p, candidates[n - 1])
  {
    hide Releasable;
    if n == 1 {
      assert candidates[..1][1..] == [] && candidates[..0] == [];
    } else {
      SumOfFirst(p, candidates[1..], n - 1);
      assert candidates[..n][1..] == candidates[1..][..n - 1];
      assert candidates[..n - 1][1..] == candidates[1..][..n - 2];
    }
  }

  // ----- Sessions of the process

  /** A session a connection routes to, and its place in the order of opening. */
  datatype Routed<T> = Routed(openedAt: nat, session: T)

  ghost predicate Sorted<T>(sessions: seq<Routed<T>>) {
    forall i, j :: 0 <= i < j < |sessions| ==> sessions[i].openedAt <= sessions[j].openedAt
  }

  function Placed<T>(r: Routed<T>, sessions: seq<Routed<T>>): seq<Routed<T>> {
    if sessions == [] || sessions[|sessions| - 1].openedAt <= r.openedAt then sessions + [r]
    else Placed(r, sessions[..|sessions| - 1]) + [sessions[|sessions| - 1]]
  }

  /** `sessions.sort_by_key(opened)`, which is stable. */
  function ByOpening<T>(sessions: seq<Routed<T>>): seq<Routed<T>> {
    if sessions == [] then [] else Placed(sessions[|sessions| - 1], ByOpening(sessions[..|sessions| - 1]))
  }

  lemma {:induction false} PlacedHas<T>(r: Routed<T>, sessions: seq<Routed<T>>)
    ensures multiset(Placed(r, sessions)) == multiset(sessions) + multiset{r}
  {
    if sessions != [] && sessions[|sessions| - 1].openedAt > r.openedAt {
      var n := |sessions| - 1;
      PlacedHas(r, sessions[..n]);
      assert sessions == sessions[..n] + [sessions[n]];
    }
  }

  lemma InPlaced<T>(r: Routed<T>, sessions: seq<Routed<T>>, s: Routed<T>)
    requires s in Placed(r, sessions)
    ensures s in sessions || s == r
  {
    PlacedHas(r, sessions);
    assert s in multiset(Placed(r, sessions));
  }

  lemma {:induction false} PlacedSorts<T>(r: Routed<T>, sessions: seq<Routed<T>>)
    requires Sorted(sessions)
    ensures Sorted(Placed(r, sessions))
  {
    var n := |sessions| - 1;
    if sessions != [] && sessions[n].openedAt > r.openedAt {
      PlacedSorts(r, sessions[..n]);
      forall s | s in Placed(r, sessions[..n]) ensures s.openedAt <= sessions[n].openedAt {
        InPlaced(r, sessions[..n], s);
      }
    } else {
    }
  }

  lemma {:induction false} OpeningSorts<T>(sessions: seq<Routed<T>>)
    ensures Sorted(ByOpening(sessions)) && multiset(ByOpening(sessions)) == multiset(sessions)
  {
    if sessions != [] {
      var n := |sessions| - 1;
      OpeningSorts(sessions[..n]);
      PlacedSorts(sessions[n], ByOpening(sessions[..n]));
      PlacedHas(sessions[n], ByOpening(sessions[..n]));
      assert sessions == sessions[..n] + [sessions[n]];
    }
  }

  /** Releases detail session by session while `total`, the bytes of the
      process, is over the bound. */
  function EnforceEach(sessions: seq<Routed<Projection>>, total: int, bound: nat): (seq<Routed<Projection>>, int) {
    if sessions == [] || total <= bound then (sessions, total)
    else
      var (q, freed) := ReleaseDetail(sessions[0].session, total - bound);
      var (rest, left) := EnforceEach(sessions[1..], total - freed, bound);
      ([sessions[0].(session := q)] + rest, left)
  }

  /** `enforce_detail_bound` */
  function EnforceDetailBound(sessions: seq<Routed<Projection>>, total: int, bound: nat): (seq<Routed<Projection>>, int) {
    EnforceEach(ByOpening(sessions), total, bound)
  }

  function SumDetail(sessions: seq<Routed<Projection>>): int {
    if sessions == [] then 0 else sessions[0].session.detailBytes + SumDetail(sessions[1..])
  }

  lemma {:induction false} SumOfMore(sessions: seq<Routed<Projection>>, r: Routed<Projection>)
    ensures SumDetail(sessions + [r]) == SumDetail(sessions) + r.session.detailBytes
  {
    if sessions != [] {
      SumOfMore(sessions[1..], r);
      assert (sessions + [r])[1..] == sessions[1..] + [r];
    }
  }

  lemma {:induction false} SumReplacedAt(sessions: seq<Routed<Projection>>, i: nat, r: Routed<Projection>)
    requires i < |sessions|
    ensures SumDetail(sessions[i := r]) == SumDetail(sessions) - sessions[i].session.detailBytes + r.session.detailBytes
  {
    if i > 0 {
      SumReplacedAt(sessions[1..], i - 1, r);
      assert sessions[i := r][1..] == sessions[1..][i - 1 := r];
    } else {
      assert sessions[i := r][1..] == sessions[1..];
    }
  }

  lemma {:induction false} PlacedSum(r: Routed<Projection>, sessions: seq<Routed<Projection>>)
    ensures SumDetail(Placed(r, sessions)) == SumDetail(sessions) + r.session.detailBytes
  {
    if sessions == [] || sessions[|sessions| - 1].openedAt <= r.openedAt {
      SumOfMore(sessions, r);
    } else {
      var n := |sessions| - 1;
      PlacedSum(r, sessions[..n]);
      SumOfMore(sessions[..n], sessions[n]);
      SumOfMore(Placed(r, sessions[..n]), sessions[n]);
      assert sessions[..n] + [sessions[n]] == sessions;
    }
  }

  lemma {:induction false} OpeningSum(sessions: seq<Routed<Projection>>)
    ensures SumDetail(ByOpening(sessions)) == SumDetail(sessions)
  {
    if sessions != [] {
      var n := |sessions| - 1;
      OpeningSum(sessions[..n]);
      PlacedSum(sessions[n], ByOpening(sessions[..n]));
      SumOfMore(sessions[..n], sessions[n]);
      assert sessions[..n] + [sessions[n]] == sessions;
    }
  }

  /** A session in good order. */
  ghost predicate Kept(p: Projection) {
    Accounted(p) && UniqueIds(p.snapshot.items)
  }

  ghost predicate AllKept(sessions: seq<Routed<Projection>>) {
    forall i :: 0 <= i < |sessions| ==> Kept(sessions[i].session)
  }

  /** What enforcing leaves: the first `k` sessions were asked, all but the last
      of them are exhausted, the others are as they were. */
  ghost predicate AskedFirst(before: seq<Routed<Projection>>, after: seq<Routed<Projection>>, k: nat) {
    && |after| == |before| && k <= |before|
    && (forall i :: 0 <= i < |before| ==> after[i].openedAt == before[i].openedAt
                                          && after[i].session.snapshot == before[i].session.snapshot)
    && (forall i :: 0 <= i < k - 1 ==> Exhausted(after[i].session))
    && (forall i :: k <= i < |before| ==> after[i] == before[i])
  }

  lemma NoneAsked(sessions: seq<Routed<Projection>>)
    ensures AskedFirst(sessions, sessions, 0)
  {
    hide Exhausted;
  }

  lemma OneMoreAsked(before: seq<Routed<Projection>>, first: Routed<Projection>, rest: seq<Routed<Projection>>, k: nat)
    requires before != [] && AskedFirst(before[1..], rest, k)
    requires first.openedAt == before[0].openedAt && first.session.snapshot == before[0].session.snapshot
    requires k > 0 ==> Exhausted(first.session)
    ensures AskedFirst(before, [first] + rest, k + 1)
  {
    hide Exhausted;
    var after := [first] + rest;
    forall i | 0 < i < |before| ensures after[i] == rest[i - 1] && before[i] == before[1..][i - 1] {
    }
  }

  lemma {:induction false} EnforceAsksFirst(sessions: seq<Routed<Projection>>, total: int, bound: nat) returns (k: nat)
    requires AllKept(sessions)
    ensures var (after, left) := EnforceEach(sessions, total, bound);
            && AskedFirst(sessions, after, k) && AllKept(after)
            && left - total == SumDetail(after) - SumDetail(sessions)
            && (k > 0 ==> total > bound)
            && (left > bound ==> k == |sessions| && forall i :: 0 <= i < |after| ==> Exhausted(after[i].session))
    decreases |sessions|
  {
    hide ReleaseDetail, Exhausted, Accounted, UniqueIds, AskedFirst;
    if sessions == [] || total <= bound {
      k := 0;
      NoneAsked(sessions);
    } else {
      var p := sessions[0].session;
      var (q, freed) := ReleaseDetail(p, total - bound);
      ReleaseDetailFrees(p, total - bound);
      var j := EnforceAsksFirst(sessions[1..], total - freed, bound);
      var rest := EnforceEach(sessions[1..], total - freed, bound).0;
      k := j + 1;
      OneMoreAsked(sessions, sessions[0].(session := q), rest, j);
      var after := [sessions[0].(session := q)] + rest;
      assert after[1..] == rest;
      forall i | 0 <= i < |after| ensures Kept(after[i].session) {
        if i > 0 { assert after[i] == rest[i - 1]; }
      }
      AskedIsWithin(sessions[1..], rest, j);
    }
  }

  lemma AskedIsWithin(before: seq<Routed<Projection>>, after: seq<Routed<Projection>>, k: nat)
    requires AskedFirst(before, after, k)
    ensures |after| == |before| && k <= |before|
  {
  }

  lemma SortedKept(sessions: seq<Routed<Projection>>)
    requires AllKept(sessions)
    ensures Sorted(ByOpening(sessions)) && AllKept(ByOpening(sessions))
  {
    hide Kept;
    OpeningSorts(sessions);
    var before := ByOpening(sessions);
    forall i | 0 <= i < |before| ensures Kept(before[i].session) {
      assert before[i] in multiset(sessions);
      var j :| 0 <= j < |sessions| && sessions[j] == before[i];
    }
  }

  /** From `p` to `q` the item at `j` lost detail, and had to: with that still
      held, `left` bytes would be over `bound`. */
  ghost predicate NeededAt(p: Projection, q: Projection, left: int, bound: nat, j: nat) {
    && j < |p.snapshot.items| && MayRelease(p, j) && !Untouched(p, q, p.snapshot.items[j].id)
    && left + ReleasableAt(p, j) > bound
  }

  /** Some session lost detail it had to lose. */
  ghost predicate NoneInVain(sessions: seq<Routed<Projection>>, after: seq<Routed<Projection>>, left: int, bound: nat)
    requires |after| == |sessions|
  {
    exists i, j :: 0 <= i < |sessions| && NeededAt(sessions[i].session, after[i].session, left, bound, j)
  }

  /** Enforcing the bound takes no more than it needs. */
  lemma {:induction false} EnforceNoMore(sessions: seq<Routed<Projection>>, total: int, bound: nat)
    requires AllKept(sessions)
    ensures var (after, left) := EnforceEach(sessions, total, bound);
            |after| == |sessions| && (left < total ==> NoneInVain(sessions, after, left, bound))
    decreases |sessions|
  {
    hide ReleaseDetail, Kept, NeededAt;
    var (after, left) := EnforceEach(sessions, total, bound);
    if sessions != [] && total > bound {
      var p := sessions[0].session;
      var freed := ReleaseDetail(p, total - bound).1;
      EnforceNoMore(sessions[1..], total - freed, bound);
      var rest := EnforceEach(sessions[1..], total - freed, bound).0;
      if left < total - freed {
        var i, j :| 0 <= i < |sessions| - 1 && NeededAt(sessions[1..][i].session, rest[i].session, left, bound, j);
        assert sessions[1..][i] == sessions[i + 1] && rest[i] == after[i + 1];
      } else if freed > 0 {
        assert Kept(p);
        NeverMore(sessions[1..], total - freed, bound);
        var j := LastNeeded(p, total, bound);
        assert NeededAt(sessions[0].session, after[0].session, left, bound, j);
      }
    }
  }

  lemma LastNeeded(p: Projection, total: int, bound: nat) returns (j: nat)
    requires Kept(p) && total > bound && ReleaseDetail(p, total - bound).1 > 0
    ensures var (q, freed) := ReleaseDetail(p, total - bound); NeededAt(p, q, total - freed, bound, j)
  {
    hide ReleaseDetail, Kept, MayRelease, ReleasableAt, Untouched;
    ReleaseIsOldestFirst(p, total - bound);
    var (q, freed) := ReleaseDetail(p, total - bound);
    j :| 0 <= j < |p.snapshot.items| && LastReleased(p, q, freed, total - bound, j);
  }

  lemma {:induction false} NeverMore(sessions: seq<Routed<Projection>>, total: int, bound: nat)
    ensures EnforceEach(sessions, total, bound).1 <= total
    decreases |sessions|
  {
    hide ReleaseDetail;
    if sessions != [] && total > bound {
      NeverMore(sessions[1..], total - ReleaseDetail(sessions[0].session, total - bound).1, bound);
    }
  }

  /** A session lost detail only if every one opened less recently has none
      left. */
  ghost predicate OldestFirst(before: seq<Routed<Projection>>, after: seq<Routed<Projection>>)
    requires |after| == |before|
  {
    forall i, j :: 0 <= i < |after| && 0 <= j < |after| && before[i].openedAt < before[j].openedAt ==>
                     after[j] == before[j] || Exhausted(after[i].session)
  }

  lemma AskedIsOldestFirst(before: seq<Routed<Projection>>, after: seq<Routed<Projection>>, k: nat)
    requires Sorted(before) && AskedFirst(before, after, k)
    ensures OldestFirst(before, after)
    ensures forall i :: 0 <= i < |after| ==> after[i].session.snapshot == before[i].session.snapshot
  {
    hide Exhausted;
    forall i, j | 0 <= i < |after| && 0 <= j < |after| && before[i].openedAt < before[j].openedAt
      ensures after[j] == before[j] || Exhausted(after[i].session) {
      assert i < j;
    }
  }

  /** Enforcing the process bound keeps the total the sum over the sessions and
      what others hold, ends within the bound or with nothing left to release,
      and takes detail from a session only when every one opened less recently
      has none left, and no more than needed; what consumers see stays. */
  lemma BoundIsEnforced(sessions: seq<Routed<Projection>>, others: nat, bound: nat)
    requires AllKept(sessions)
    ensures var before := ByOpening(sessions);
            var (after, left) := EnforceDetailBound(sessions, SumDetail(sessions) + others, bound);
            && |after| == |before| && AllKept(after) && left == SumDetail(after) + others
            && (left > bound ==> forall i :: 0 <= i < |after| ==> Exhausted(after[i].session))
            && OldestFirst(before, after)
            && (forall i :: 0 <= i < |after| ==> after[i].session.snapshot == before[i].session.snapshot)
            && (left < SumDetail(sessions) + others ==> NoneInVain(before, after, left, bound))
  {
    hide Exhausted, AllKept, EnforceEach, Sorted, AskedFirst, OldestFirst, ByOpening, NoneInVain;
    var before := ByOpening(sessions);
    SortedKept(sessions);
    OpeningSum(sessions);
    EnforceNoMore(before, SumDetail(before) + others, bound);
    var k := EnforceAsksFirst(before, SumDetail(before) + others, bound);
    var after := EnforceEach(before, SumDetail(before) + others, bound).0;
    AskedIsWithin(before, after, k);
    AskedIsOldestFirst(before, after, k);
  }
}
