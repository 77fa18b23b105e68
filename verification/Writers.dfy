/** Writer ownership: within one process a session has at most one managed
    writer. `writer.rs`, its registry and the claims on it. */
module Writers {
  import opened Text

  datatype Writer = Acp | Pty

  datatype Liveness = Free | ExternalActive | Unknown

  datatype Refusal = WriterActive(writer: Writer) | ExternallyActive | ConfirmationRequired

  datatype Namespace = Native | AcpIds | Ide

  datatype SessionKey = SessionKey(agent: string, namespace: Namespace, sessionId: string)

  /** A session, or a launch whose session id is not known yet. */
  datatype Target = Session(key: SessionKey) | Launch(id: string)

  datatype Holder = Holder(claim: nat, writer: Writer)

  datatype Held = Held(writer: Writer, target: Target)

  /** The slots and the claims not dropped yet. */
  datatype Registry = Registry(next: nat, held: map<Target, Holder>, live: map<nat, Held>)

  const EMPTY := Registry(0, map[], map[])

  datatype Outcome = Granted(claim: nat) | Refused(refusal: Refusal)

  // ----- The operations

  function Hold(r: Registry, target: Target, writer: Writer): Registry {
    var id := r.next + 1;
    Registry(id, r.held[target := Holder(id, writer)], r.live[id := Held(writer, target)])
  }

  function Evidence(writer: Writer, liveness: Liveness, confirmed: bool): Option<Refusal> {
    if liveness == ExternalActive then Some(ExternallyActive)
    else if liveness == Unknown && writer == Acp && !confirmed then Some(ConfirmationRequired)
    else None
  }

  /** `WriterRegistry::claim` */
  function Claim(r: Registry, key: SessionKey, writer: Writer, liveness: Liveness, confirmed: bool): (Registry, Outcome) {
    var target := Session(key);
    if target in r.held then (r, Refused(WriterActive(r.held[target].writer)))
    else
      match Evidence(writer, liveness, confirmed)
      case Some(refusal) => (r, Refused(refusal))
      case None => (Hold(r, target, writer), Granted(r.next + 1))
  }

  /** `WriterRegistry::claim_launch` */
  function ClaimLaunch(r: Registry, launch: string, writer: Writer): (Registry, Outcome) {
    var target := Launch(launch);
    if target in r.held then (r, Refused(WriterActive(r.held[target].writer)))
    else (Hold(r, target, writer), Granted(r.next + 1))
  }

  /** `WriterClaim::bind` */
  function Bind(r: Registry, id: nat, key: SessionKey): (Registry, Option<Refusal>)
    requires id in r.live
  {
    var target, claim := Session(key), r.live[id];
    if claim.target == target then (r, None)
    else if target in r.held then (r, Some(WriterActive(r.held[target].writer)))
    else
      (Registry(r.next, (r.held - {claim.target})[target := Holder(id, claim.writer)],
                r.live[id := Held(claim.writer, target)]),
       None)
  }

  /** The drop of a claim: its slot is freed if it is still this claim's. */
  function Dropped(r: Registry, id: nat): Registry
    requires id in r.live
  {
    var target := r.live[id].target;
    Registry(r.next,
             if target in r.held && r.held[target].claim == id then r.held - {target} else r.held,
             r.live - {id})
  }

  // ----- Claims and slots match

  /** Each live claim holds the slot of its target, each slot is held by a live
      claim on it, and both name each other. */
  ghost predicate Matched(r: Registry) {
    && (forall id :: id in r.live ==>
          && 0 < id <= r.next
          && r.live[id].target in r.held
          && r.held[r.live[id].target] == Holder(id, r.live[id].writer))
    && (forall t :: t in r.held ==>
          r.held[t].claim in r.live && r.live[r.held[t].claim].target == t)
  }

  /** No session or launch has two live claims. */
  lemma OneClaimEach(r: Registry, a: nat, b: nat)
    requires Matched(r) && a in r.live && b in r.live && r.live[a].target == r.live[b].target
    ensures a == b
  {
    assert r.held[r.live[a].target].claim == a;
  }

  lemma HoldMatches(r: Registry, target: Target, writer: Writer)
    requires Matched(r) && target !in r.held
    ensures Matched(Hold(r, target, writer))
  {
    var s := Hold(r, target, writer);
    forall t | t in s.held ensures s.held[t].claim in s.live && s.live[s.held[t].claim].target == t {
      if t != target { assert r.held[t].claim in r.live; }
    }
  }

  lemma BindMatches(r: Registry, id: nat, key: SessionKey)
    requires Matched(r) && id in r.live
    ensures Matched(Bind(r, id, key).0)
  {
    var s := Bind(r, id, key).0;
    if s != r {
      forall other | other in s.live
        ensures s.live[other].target in s.held && s.held[s.live[other].target] == Holder(other, s.live[other].writer)
      {
        if other != id && r.live[other].target == r.live[id].target { OneClaimEach(r, other, id); }
      }
      forall t | t in s.held ensures s.held[t].claim in s.live && s.live[s.held[t].claim].target == t {
        if t != Session(key) { assert r.held[t].claim in r.live; }
      }
    }
  }

  lemma DropMatches(r: Registry, id: nat)
    requires Matched(r) && id in r.live
    ensures Matched(Dropped(r, id))
  {
    var s := Dropped(r, id);
    forall other | other in s.live
      ensures s.live[other].target in s.held && s.held[s.live[other].target] == Holder(other, s.live[other].writer)
    {
      if r.live[other].target == r.live[id].target { OneClaimEach(r, other, id); }
    }
    forall t | t in s.held ensures s.held[t].claim in s.live && s.live[s.held[t].claim].target == t {
      assert r.held[t].claim in r.live;
    }
  }

  /** A drop frees exactly the claim's own slot. */
  lemma DropFreesItsSlot(r: Registry, id: nat)
    requires Matched(r) && id in r.live
    ensures Dropped(r, id).held.Keys == r.held.Keys - {r.live[id].target}
    ensures forall t :: t in r.held && t != r.live[id].target ==> Dropped(r, id).held[t] == r.held[t]
  {
  }

  /** A bind is refused exactly when another live claim is on the session, and
      then changes nothing; granted, it moves the claim's slot and no other. */
  lemma BindMovesItsSlot(r: Registry, id: nat, key: SessionKey)
    requires Matched(r) && id in r.live
    ensures var (s, refused) := Bind(r, id, key);
            && (refused.Some? <==>
                  exists other :: other in r.live && other != id && r.live[other].target == Session(key))
            && (refused.Some? ==> s == r)
            && (refused.None? ==>
                  && s.live == r.live[id := Held(r.live[id].writer, Session(key))]
                  && s.held.Keys == r.held.Keys - {r.live[id].target} + {Session(key)}
                  && forall t :: t in r.held && t != r.live[id].target ==> t in s.held && s.held[t] == r.held[t])
  {
    var target := Session(key);
    if target in r.held && r.live[id].target != target {
      var other := r.held[target].claim;
      assert other in r.live && r.live[other].target == target;
    }
    if other :| other in r.live && other != id && r.live[other].target == target {
      assert r.held[target].claim == other;
    }
  }

  /** A claim is granted exactly when the session has no live claim and the
      evidence allows it; refused, it changes nothing. */
  lemma ClaimIsExclusive(r: Registry, key: SessionKey, writer: Writer, liveness: Liveness, confirmed: bool)
    requires Matched(r)
    ensures var (s, outcome) := Claim(r, key, writer, liveness, confirmed);
            && (outcome.Granted? <==>
                  && (forall id :: id in r.live ==> r.live[id].target != Session(key))
                  && liveness != ExternalActive && (liveness == Unknown && writer == Acp ==> confirmed))
            && (outcome.Granted? ==> outcome.claim !in r.live
                                     && s.live == r.live[outcome.claim := Held(writer, Session(key))])
            && (outcome.Refused? ==> s == r)
  {
    if Session(key) in r.held {
      assert r.held[Session(key)].claim in r.live;
    }
  }

  /** `writer` holds `target`. */
  ghost predicate HeldBy(r: Registry, target: Target, writer: Writer) {
    exists id :: id in r.live && r.live[id] == Held(writer, target)
  }

  lemma HeldIsLive(r: Registry, target: Target)
    requires Matched(r)
    ensures forall w :: HeldBy(r, target, w) <==> target in r.held && r.held[target].writer == w
  {
    if target in r.held {
      var id := r.held[target].claim;
      assert r.live[id] == Held(r.held[target].writer, target);
    }
  }

  /** What a refusal tells: the writer that holds the session, else that one runs
      outside, else that it may and nobody confirmed. */
  lemma RefusalTells(r: Registry, key: SessionKey, writer: Writer, liveness: Liveness, confirmed: bool)
    requires Matched(r)
    ensures var outcome, free := Claim(r, key, writer, liveness, confirmed).1, forall w :: !HeldBy(r, Session(key), w);
            && (forall w :: outcome == Refused(WriterActive(w)) <==> HeldBy(r, Session(key), w))
            && (outcome == Refused(ExternallyActive) <==> free && liveness == ExternalActive)
            && (outcome == Refused(ConfirmationRequired) <==>
                  free && liveness == Unknown && writer == Acp && !confirmed)
  {
    hide Hold, HeldBy;
    HeldIsLive(r, Session(key));
    if Session(key) in r.held { assert HeldBy(r, Session(key), r.held[Session(key)].writer); }
  }

  /** A launch is granted exactly while nobody holds it, and a bind refused
      exactly while another claim holds the session. */
  lemma OthersAreRefused(r: Registry, launch: string, writer: Writer, id: nat, key: SessionKey)
    requires Matched(r) && id in r.live
    ensures forall w :: ClaimLaunch(r, launch, writer).1 == Refused(WriterActive(w)) <==> HeldBy(r, Launch(launch), w)
    ensures ClaimLaunch(r, launch, writer).1.Granted? <==> forall w :: !HeldBy(r, Launch(launch), w)
    ensures forall w :: Bind(r, id, key).1 == Some(WriterActive(w)) <==>
                          r.live[id].target != Session(key) && HeldBy(r, Session(key), w)
  {
    hide Hold, HeldBy;
    HeldIsLive(r, Launch(launch));
    HeldIsLive(r, Session(key));
    if Launch(launch) in r.held { assert HeldBy(r, Launch(launch), r.held[Launch(launch)].writer); }
  }

  // ----- Any run

  datatype Step =
    | DoClaim(key: SessionKey, writer: Writer, liveness: Liveness, confirmed: bool)
    | DoClaimLaunch(launch: string, writer: Writer)
    | DoBind(claim: nat, key: SessionKey)
    | DoDrop(claim: nat)

  /** A step; one on a claim that is not live is not taken. */
  function After(r: Registry, step: Step): Registry {
    match step
    case DoClaim(key, writer, liveness, confirmed) => Claim(r, key, writer, liveness, confirmed).0
    case DoClaimLaunch(launch, writer) => ClaimLaunch(r, launch, writer).0
    case DoBind(claim, key) => if claim in r.live then Bind(r, claim, key).0 else r
    case DoDrop(claim) => if claim in r.live then Dropped(r, claim) else r
  }

  function Run(steps: seq<Step>): Registry {
    if steps == [] then EMPTY else After(Run(steps[..|steps| - 1]), steps[|steps| - 1])
  }

  lemma {:induction false} RunMatches(steps: seq<Step>)
    ensures Matched(Run(steps))
  {
    hide Matched, Bind, Dropped, Hold, Evidence;
    if steps == [] {
      EmptyMatches();
    } else {
      RunMatches(steps[..|steps| - 1]);
      AfterMatches(Run(steps[..|steps| - 1]), steps[|steps| - 1]);
    }
  }

  lemma EmptyMatches()
    ensures Matched(EMPTY)
  {
  }

  lemma AfterMatches(r: Registry, step: Step)
    requires Matched(r)
    ensures Matched(After(r, step))
  {
    hide Matched, Bind, Dropped, Hold, Evidence;
    match step
    case DoClaim(key, writer, _, _) => if Session(key) !in r.held { HoldMatches(r, Session(key), writer); }
    case DoClaimLaunch(launch, writer) => if Launch(launch) !in r.held { HoldMatches(r, Launch(launch), writer); }
    case DoBind(claim, key) => if claim in r.live { BindMatches(r, claim, key); }
    case DoDrop(claim) => if claim in r.live { DropMatches(r, claim); }
  }

  // ----- The registry in place

  class WriterClaim {
    const id: nat
    const writer: Writer
    var target: Target

    constructor (id: nat, writer: Writer, target: Target)
      ensures this.id == id && this.writer == writer && this.target == target
    {
      this.id, this.writer, this.target := id, writer, target;
    }
  }

  /** `WriterRegistry`, with its live claims by id. */
  class WriterRegistry {
    var next: nat
    var held: map<Target, Holder>
    ghost var claims: map<nat, WriterClaim>

    ghost predicate Valid()
      reads this, claims.Values
    {
      && (forall id :: id in claims ==> claims[id].id == id)
      && Matched(State())
    }

    ghost function State(): Registry
      reads this, claims.Values
    {
      Registry(next, held, map id | id in claims :: Held(claims[id].writer, claims[id].target))
    }

    constructor ()
      ensures Valid() && State() == EMPTY
    {
      next, held, claims := 0, map[], map[];
    }

    method HoldTarget(target: Target, writer: Writer) returns (claim: WriterClaim)
      requires Valid() && target !in held
      modifies this
      ensures State() == Hold(old(State()), target, writer)
      ensures Valid() && fresh(claim) && claims == old(claims)[claim.id := claim] && claim.id == old(next) + 1
    {
      hide Matched;
      ghost var before := State();
      HoldMatches(before, target, writer);
      next := next + 1;
      claim := new WriterClaim(next, writer, target);
      held := held[target := Holder(next, writer)];
      claims := claims[next := claim];
      assert State().live == before.live[next := Held(writer, target)];
    }

    method ClaimSession(key: SessionKey, writer: Writer, liveness: Liveness, confirmed: bool)
      returns (claim: WriterClaim?, refusal: Option<Refusal>)
      requires Valid()
      modifies this
      ensures Valid() && State() == Claim(old(State()), key, writer, liveness, confirmed).0
      ensures Claim(old(State()), key, writer, liveness, confirmed).1 ==
                if claim != null then Granted(claim.id) else Refused(refusal.UnwrapOr(ExternallyActive))
      ensures claim != null <==> refusal == None
      ensures claims == if claim != null then old(claims)[claim.id := claim] else old(claims)
    {
      claim, refusal := null, None;
      var target := Session(key);
      if target in held {
        refusal := Some(WriterActive(held[target].writer));
      } else if liveness == ExternalActive {
        refusal := Some(ExternallyActive);
      } else if liveness == Unknown && writer == Acp && !confirmed {
        refusal := Some(ConfirmationRequired);
      } else {
        claim := HoldTarget(target, writer);
      }
    }

    method ClaimNewLaunch(launch: string, writer: Writer) returns (claim: WriterClaim?, refusal: Option<Refusal>)
      requires Valid()
      modifies this
      ensures Valid() && State() == ClaimLaunch(old(State()), launch, writer).0
      ensures ClaimLaunch(old(State()), launch, writer).1 ==
                if claim != null then Granted(claim.id) else Refused(refusal.UnwrapOr(ExternallyActive))
      ensures claim != null <==> refusal == None
      ensures claims == if claim != null then old(claims)[claim.id := claim] else old(claims)
    {
      claim, refusal := null, None;
      var target := Launch(launch);
      if target in held {
        refusal := Some(WriterActive(held[target].writer));
      } else {
        claim := HoldTarget(target, writer);
      }
    }

    method BindClaim(claim: WriterClaim, key: SessionKey) returns (refusal: Option<Refusal>)
      requires Valid() && claim.id in claims && claims[claim.id] == claim
      modifies this`held, claim
      ensures Valid() && (State(), refusal) == Bind(old(State()), claim.id, key)
    {
      ghost var before := State();
      BindMatches(before, claim.id, key);
      var target := Session(key);
      if claim.target == target {
        return None;
      }
      if target in held {
        return Some(WriterActive(held[target].writer));
      }
      held := (held - {claim.target})[target := Holder(claim.id, claim.writer)];
      claim.target := target;
      refusal := None;
      assert State().live == before.live[claim.id := Held(claim.writer, target)];
    }

    method DropClaim(claim: WriterClaim)
      requires Valid() && claim.id in claims && claims[claim.id] == claim
      modifies this`held, this`claims
      ensures Valid() && State() == Dropped(old(State()), claim.id) && claims == old(claims) - {claim.id}
    {
      hide Matched;
      ghost var before := State();
      DropMatches(before, claim.id);
      if claim.target in held && held[claim.target].claim == claim.id {
        held := held - {claim.target};
      }
      claims := claims - {claim.id};
      assert State().live == before.live - {claim.id};
    }
  }
}
