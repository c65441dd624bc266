/**
 The facade over manager, store, refresher and publication
 (internal/app/runtime.go). Each method is one hold of the mutation lock; what
 Valid says holds at every release, whatever calls came before, those of the
 subscription service among them. The one way to lose it is a publication that
 is torn: the clock goes back within it and the disk fails as well.
 */
module RuntimeFacade {
  import opened Foundations
  import opened StateTypes
  import opened Platform
  import opened Credentials
  import opened SelectorRuns
  import opened Manager
  import opened Durable
  import opened Acceptance
  import opened Subscriptions
  import opened FetchProof
  import opened Control
  import opened Publication
  import opened Refreshing

  // ---------- what holds whenever the mutation lock is free ----------

  // Manager, registries and store agree on the generation, its keys and the
  // access verifier; no operation is under way; sessions are held exactly while
  // ready or degraded, and then the same sessions are durable.
  ghost predicate Agree(p: Platform, h: Holders) {
    && h.socks == h.registry && h.registry.Holds(h.durable.subscription)
    && h.m.subscription == h.durable.subscription && h.m.key == h.durable.verifier
    && h.m.active.None? && h.m.phase != Authenticating && h.m.phase != Syncing
    && (h.m.HoldsSessions() <==> h.m.phase == ServiceState.Ready || h.m.phase == Degraded)
    && (h.m.HoldsSessions() ==>
          h.durable.active.Some? && h.durable.active.value.sessions == h.m.snapshot.value.sessions)
    && Dated(h.m)
  }

  // The references in memory are dated and named.
  ghost predicate Dated(m: ManagerState) {
    m.snapshot.Some? ==> DatedTombstones(m.snapshot.value.selectors) && "" !in m.snapshot.value.selectors
  }

  lemma UntouchedAgrees(p: Platform, h: Holders, m: ManagerState, h': Holders)
    requires Agree(p, h) && Untouched(p, h.(m := m), h')
    requires m.subscription == h.m.subscription && m.key == h.m.key && m.active.None?
    requires m.phase != Authenticating && m.phase != Syncing
    requires m.HoldsSessions() <==> m.phase == ServiceState.Ready || m.phase == Degraded
    requires m.HoldsSessions() ==> h.m.HoldsSessions() && m.snapshot.value.sessions == h.m.snapshot.value.sessions
    requires Dated(m)
    ensures Agree(p, h')
  {
  }

  // A failed operation leaves the manager signed out after a login, degraded or
  // expired after a refresh.
  lemma FailureSettles(p: Platform, h: Holders, op: Operation, now: Time)
    requires Agree(p, h) && Begin(h.m, op).Ok?
    ensures var m := AfterFailure(h.m, op, now);
            && m.subscription == h.m.subscription && m.key == h.m.key && m.active.None? && m.lease == h.m.lease + 1
            && m.phase in (if op == LoginOperation then {SignedOut} else {Degraded, ServiceState.Expired})
            && (m.HoldsSessions() <==> m.phase == Degraded)
            && (m.HoldsSessions() ==> m.snapshot == h.m.snapshot) && Dated(m)
  {
    assert !WIPED.Valid();
  }

  // Without sessions in memory the durable one can go.
  lemma ClearedAgrees(p: Platform, h: Holders, h': Holders)
    requires Agree(p, h) && !h.m.HoldsSessions() && h' == h.(durable := h.durable.(active := None))
    ensures Agree(p, h')
  {
  }

  lemma SignedOutAgrees(p: Platform, h: Holders, h': Holders)
    requires Agree(p, h) && h' == h.(m := SignOut(h.m), durable := h.durable.(active := None))
    ensures Agree(p, h')
  {
    assert !WIPED.Valid();
  }

  lemma StoppedAgrees(p: Platform, h: Holders, h': Holders)
    requires Agree(p, h) && h' == h.(m := SignOut(h.m))
    ensures Agree(p, h') && !h'.m.HoldsSessions()
  {
    assert !WIPED.Valid();
  }

  lemma ExpiryAgrees(p: Platform, h: Holders, now: Time, h': Holders)
    requires Agree(p, h)
             && h' == h.(m := if h.m.phase in {ServiceState.Ready, ServiceState.Degraded} then ExpireLocked(h.m, now)
                         else h.m)
    ensures Agree(p, h') && !h'.m.HoldsSessions()
  {
    assert !WIPED.Valid();
  }

  lemma SetUpAgrees(p: Platform, h: Holders, key: Key, h': Holders)
    requires Agree(p, h) && h' == h.(m := h.m.(key := Some(key)), durable := h.durable.(verifier := Some(key)))
    ensures Agree(p, h')
  {
  }

  lemma FetchAgrees(p: Platform, h: Holders, generation: nat, hash: Key, at: Time, outcome: FetchOutcome, h': Holders)
    requires Agree(p, h)
    requires var after := AfterFetch(p, h.durable, h.cache, generation, hash, at, outcome);
             h' == h.(durable := after.0, cache := after.1)
    ensures Agree(p, h')
  {
  }

  lemma MoveAgrees(p: Platform, h: Holders, target: string, h': Holders)
    requires Agree(p, h) && Reconciled(p, h.durable, target) == Some(h'.durable)
    requires h' == h.(durable := h'.durable, cache := h'.cache)
    ensures Agree(p, h')
  {
  }

  // Every build over dated and named references gives such references.
  lemma BuildDated(p: Platform, reg: Registry, want: nat, nodes: seq<Node>, previous: Selectors, now: Time,
                   r: BuildResult)
    requires IsBuild(p, reg, want, nodes, previous, now, r) && DatedTombstones(previous) && "" !in previous
    ensures DatedTombstones(r.selectors) && "" !in r.selectors
  {
    var dead := Entombed(Selected(p, reg, nodes), previous, want, now);
    DeadNamesDated(Selected(p, reg, nodes), previous, want, now);
    BuildFacts(p, reg, want, nodes, previous, now, r);
    forall name | name in r.selectors
      ensures name != "" && (r.selectors[name].tombstoned ==> r.selectors[name].until != UNSET)
    {
      if r.selectors[name].tombstoned {
        assert name in Tombstones(r.selectors);
      } else {
        var n :| n in r.nodes && n.selector == name;
        SelectedNamed(p, reg, nodes, n);
      }
    }
  }

  lemma SelectedNamed(p: Platform, reg: Registry, nodes: seq<Node>, n: Node)
    requires FirstProblem(p, reg, nodes, 0).None? && n in Selected(p, reg, nodes)
    ensures n.selector != ""
  {
    SelectedDistinct(p, reg, nodes);
    var k :| 0 <= k < |nodes| && Selected(p, reg, nodes)[k] == n;
    assert Refine(p, reg, nodes[k]).Ok?;
  }

  lemma OfferDated(q: Request, m: ManagerState, registry: Registry, offered: RuntimeSnapshot)
    requires Dated(m) && Offered(q, m, registry, offered)
    ensures DatedTombstones(offered.selectors) && "" !in offered.selectors
  {
    var want := registry.generation;
    BuildDated(q.platform, registry, want, Merged(q.answers), OfGeneration(Previous(m), want), q.moments.built,
               BuildResult(offered.nodes, offered.selectors));
  }

  lemma RebuiltDated(p: Platform, registry: Registry, snapshot: RuntimeSnapshot, now: Time, rebuilt: RuntimeSnapshot)
    requires RebuiltUnder(p, registry, snapshot, now, rebuilt)
    requires DatedTombstones(snapshot.selectors) && "" !in snapshot.selectors
    ensures DatedTombstones(rebuilt.selectors) && "" !in rebuilt.selectors
  {
    BuildDated(p, registry, registry.generation, snapshot.nodes, OfGeneration(snapshot.selectors, registry.generation),
               now,
               BuildResult(rebuilt.nodes, rebuilt.selectors));
  }

  lemma AdoptionAgrees(q: Request, h: Holders, offered: RuntimeSnapshot, rebuilt: RuntimeSnapshot, h': Holders)
    requires AdoptedBy(q, h, offered, rebuilt, h') && h.m.key == h.durable.verifier
    requires Dated(h.m) && Offered(q, h.m, h.registry, offered)
    ensures h'.registry.Holds(h'.durable.subscription) && h'.socks == h'.registry
    ensures h'.m.subscription == h'.durable.subscription && h'.m.key == h'.durable.verifier
    ensures h'.m.HoldsSessions() && h'.durable.active == h'.m.snapshot && h'.durable.active.Some?
    ensures Dated(h'.m)
  {
    OfferDated(q, h.m, h.registry, offered);
    RebuiltDated(q.platform, h'.registry, offered, q.e.built, rebuilt);
  }

  lemma ConclusionAgrees(q: Request, h: Holders, op: Operation, r: ControlResult, h': Holders)
    requires Agree(q.platform, h) && Concludes(q, h, op, r, h') && !r.Torn?
    ensures Agree(q.platform, h')
  {
    match r
    case Rejected =>
    case Withdrawn =>
      FailureSettles(q.platform, h, op, q.moments.finished);
      UntouchedAgrees(q.platform, h, AfterFailure(h.m, op, q.moments.finished), h');
    case Done(offered, published) =>
      var mid :| AdoptedBy(q, During(h, op), offered, published, mid) && h' == mid.(m := mid.m.(active := None));
      AdoptionAgrees(q, During(h, op), offered, published, mid);
  }

  lemma TornEnds(q: Request, h: Holders, op: Operation, h': Holders)
    requires Agree(q.platform, h) && Concludes(q, h, op, Torn, h')
    ensures q.e.committed < q.e.checked && !(q.e.rewritable && StateValid(q.platform, h.durable, q.e.undone))
    ensures !Marked(q.answers)
    ensures h'.registry == h.registry && h'.socks == h.socks && h'.m == AfterFailure(h.m, op, q.moments.finished)
    ensures h'.m.subscription == h.m.subscription && (h'.m.phase == ServiceState.Expired ==> !h'.m.HoldsSessions())
  {
    var mid :| TornBefore(q, h, op, mid, h');
    TornBackwards(q, During(h, op), mid);
    TornShape(q, h, op, mid, h');
    FailureSettles(q.platform, h, op, q.moments.finished);
  }

  // ---------- when an operation completes ----------

  // A snapshot to offer, a plan for its account, a rebuild under the planned
  // generation, and a working disk.
  ghost predicate Rebuildable(q: Request, h: Holders, offered: RuntimeSnapshot, rebuilt: RuntimeSnapshot) {
    var plan := PlanOf(q.platform, h, offered, q.e);
    && Offered(q, h.m, h.registry, offered)
    && plan.Some? && q.e.writable && h.durable.verifier.Some?
    && var (g, userID) := (plan.value.generation, offered.sessions.UserID());
    && Installable(q.platform, h.m, g, userID)
    && NewRegistry(q.id, g).Some? && RebuiltUnder(q.platform, NewRegistry(q.id, g).value, offered, q.e.built, rebuilt)
  }

  // What it takes: all that, and a rebuilt snapshot that can be published.
  ghost predicate CompletesWith(q: Request, h: Holders, offered: RuntimeSnapshot, rebuilt: RuntimeSnapshot) {
    && Rebuildable(q, h, offered, rebuilt)
    && var g := PlanOf(q.platform, h, offered, q.e).value.generation;
    Publishable(q.platform, g, h.durable.verifier.value, rebuilt, q.address, q.e.checked)
  }

  ghost predicate Completes(q: Request, h: Holders, op: Operation) {
    && Begin(h.m, op).Ok? && (op == RefreshOperation ==> Refreshable(h.m))
    && exists offered, rebuilt :: CompletesWith(q, During(h, op), offered, rebuilt)
  }

  // Clock readings that are set, and keys of the right size.
  ghost predicate Regular(e: Circumstances) {
    && e.planned != UNSET && e.created != UNSET
    && (e.entropy.Some? ==> |e.entropy.value.0| == KEY_SIZE && |e.entropy.value.1| == KEY_SIZE)
  }

  lemma RebuiltUnique(p: Platform, registry: Registry, snapshot: RuntimeSnapshot, now: Time, a: RuntimeSnapshot,
                      b: RuntimeSnapshot)
    requires RebuiltUnder(p, registry, snapshot, now, a) && RebuiltUnder(p, registry, snapshot, now, b)
    ensures a == b
  {
    BuildDeterministic(p, registry, registry.generation, snapshot.nodes,
                       OfGeneration(snapshot.selectors, registry.generation), now,
                       BuildResult(a.nodes, a.selectors), BuildResult(b.nodes, b.selectors));
  }

  // What was adopted could be published.
  lemma AdoptionCompletes(q: Request, h: Holders, offered: RuntimeSnapshot, rebuilt: RuntimeSnapshot, h': Holders,
                          stamp: Time)
    requires Lawful(q.platform) && Regular(q.e) && Dated(h.m) && StateValid(q.platform, h.durable, stamp)
    requires Offered(q, h.m, h.registry, offered) && AdoptedBy(q, h, offered, rebuilt, h')
    ensures CompletesWith(q, h, offered, rebuilt)
  {
    OfferDated(q, h.m, h.registry, offered);
    StoredExactlyWhenPublishable(q.platform, h, PlanOf(q.platform, h, offered, q.e).value, offered, h'.registry,
                                 rebuilt,
                                 q.address, q.e, stamp);
  }

  // And what could be published is not withdrawn.
  lemma CompletionUnthwarted(q: Request, h: Holders, offered: RuntimeSnapshot, rebuilt: RuntimeSnapshot, stamp: Time)
    requires Marked(q.answers)
    requires Lawful(q.platform) && Regular(q.e) && Dated(h.m) && StateValid(q.platform, h.durable, stamp)
    requires CompletesWith(q, h, offered, rebuilt)
    ensures !CannotOffer(q, h.m, h.registry) && !PublicationStops(q, h) && !CommitRefused(q, h)
  {
    OfferedOffers(q, h.m, h.registry, offered);
    forall other, hurdle | Offered(q, h.m, h.registry, other)
      ensures !Stops(q.platform, h, q.id, other, hurdle, q.address, q.e)
    {
      OfferedUnique(q, h.m, h.registry, offered, other);
      if hurdle == Storing {
        CompletionServable(q, h, offered, rebuilt, stamp);
        ServableUnstopped(q, h, offered);
      } else {
        RebuildableUnstopped(q, h, offered, rebuilt, hurdle);
      }
    }
    if CommitRefused(q, h) {
      RefusedBackwards(q, h);
    }
  }

  lemma OfferedOffers(q: Request, m: ManagerState, registry: Registry, offered: RuntimeSnapshot)
    requires Offered(q, m, registry, offered)
    ensures !CannotOffer(q, m, registry)
  {
  }

  lemma RebuildableUnstopped(q: Request, h: Holders, offered: RuntimeSnapshot, rebuilt: RuntimeSnapshot, hurdle: Hurdle)
    requires Rebuildable(q, h, offered, rebuilt) && hurdle != Storing
    ensures !Stops(q.platform, h, q.id, offered, hurdle, q.address, q.e)
  {
  }

  lemma ServableUnstopped(q: Request, h: Holders, offered: RuntimeSnapshot)
    requires PlanOf(q.platform, h, offered, q.e).Some? && q.e.writable
    requires !Unservable(q.platform, h, q.id, PlanOf(q.platform, h, offered, q.e).value, offered, q.address, q.e)
    ensures !Stops(q.platform, h, q.id, offered, Storing, q.address, q.e)
  {
  }

  lemma CompletionServable(q: Request, h: Holders, offered: RuntimeSnapshot, rebuilt: RuntimeSnapshot, stamp: Time)
    requires Lawful(q.platform) && Regular(q.e) && Dated(h.m) && StateValid(q.platform, h.durable, stamp)
    requires CompletesWith(q, h, offered, rebuilt)
    ensures !Unservable(q.platform, h, q.id, PlanOf(q.platform, h, offered, q.e).value, offered, q.address, q.e)
  {
    var plan := PlanOf(q.platform, h, offered, q.e).value;
    var registry := NewRegistry(q.id, plan.generation).value;
    OfferDated(q, h.m, h.registry, offered);
    StoredExactlyWhenPublishable(q.platform, h, plan, offered, registry, rebuilt, q.address, q.e, stamp);
    forall other | RebuiltUnder(q.platform, registry, offered, q.e.built, other)
      ensures other == rebuilt
    {
      RebuiltUnique(q.platform, registry, offered, q.e.built, rebuilt, other);
    }
  }

  lemma DoneCompletes(q: Request, h: Holders, op: Operation, offered: RuntimeSnapshot, published: RuntimeSnapshot,
                      h': Holders, stamp: Time)
    requires Lawful(q.platform) && Regular(q.e) && Dated(h.m) && StateValid(q.platform, h.durable, stamp)
    requires Concludes(q, h, op, Done(offered, published), h')
    ensures Completes(q, h, op)
  {
    var mid :| AdoptedBy(q, During(h, op), offered, published, mid) && h' == mid.(m := mid.m.(active := None));
    AdoptionCompletes(q, During(h, op), offered, published, mid, stamp);
  }

  // An operation completes exactly when it may begin, its answers compose, the
  // planned generation can be installed, the rebuilt snapshot is publishable and
  // the disk works: nothing between login and the last holder refuses it for any
  // other reason.
  lemma CompletesExactly(q: Request, h: Holders, op: Operation, r: ControlResult, h': Holders, stamp: Time)
    requires Marked(q.answers)
    requires Lawful(q.platform) && Regular(q.e) && Agree(q.platform, h) && StateValid(q.platform, h.durable, stamp)
    requires Concludes(q, h, op, r, h')
    ensures r.Done? <==> Completes(q, h, op)
  {
    if r.Torn? {
      TornEnds(q, h, op, h');
    } else if r.Done? {
      DoneCompletes(q, h, op, r.offered, r.published, h', stamp);
    } else if Completes(q, h, op) {
      var offered, rebuilt :| CompletesWith(q, During(h, op), offered, rebuilt);
      CompletionUnthwarted(q, During(h, op), offered, rebuilt, stamp);
    }
  }

  // ---------- probes ----------

  datatype ProbeTarget = ProbeTarget(generation: nat, id: string, selector: string, provider: string, host: string,
                                     port: nat)

  function TargetOf(generation: nat, n: Node): ProbeTarget {
    ProbeTarget(generation, n.id, n.selector, n.provider, n.host, n.port)
  }

  predicate StillMatches(target: ProbeTarget, snapshot: Option<RuntimeSnapshot>) {
    && snapshot.Some?
    && var node := FindNode(snapshot.value.nodes, target.id);
    node.Some? && target == TargetOf(snapshot.value.generation, node.value)
  }

  function Probed(n: Node, health: Health, roundTrip: nat, at: Time): Node {
    n.(health := health, roundTrip := roundTrip, probedAt := at)
  }

  // The first bearer of the identifier gets the new health record.
  function WithProbe(nodes: seq<Node>, id: string, health: Health, roundTrip: nat, at: Time): seq<Node> {
    if nodes == [] then []
    else if nodes[0].id == id then [Probed(nodes[0], health, roundTrip, at)] + nodes[1..]
    else [nodes[0]] + WithProbe(nodes[1..], id, health, roundTrip, at)
  }

  lemma {:induction false} WithProbeAt(nodes: seq<Node>, k: nat, id: string, health: Health, roundTrip: nat, at: Time)
    requires k <= |nodes| && (forall i | 0 <= i < k :: nodes[i].id != id)
    ensures k < |nodes| && nodes[k].id == id ==>
              WithProbe(nodes, id, health, roundTrip, at) == nodes[k := Probed(nodes[k], health, roundTrip, at)]
    ensures k == |nodes| ==> WithProbe(nodes, id, health, roundTrip, at) == nodes
  {
    if k > 0 {
      WithProbeAt(nodes[1..], k - 1, id, health, roundTrip, at);
      assert nodes == [nodes[0]] + nodes[1..];
    }
  }

  // A probe changes nothing but the health record of one node.
  lemma {:induction false} ProbeChangesHealthOnly(nodes: seq<Node>, id: string, health: Health, roundTrip: nat,
                                                  at: Time, i: nat)
    requires i < |nodes|
    ensures |WithProbe(nodes, id, health, roundTrip, at)| == |nodes|
    ensures var n := WithProbe(nodes, id, health, roundTrip, at)[i];
            n == nodes[i] || (n == Probed(nodes[i], health, roundTrip, at) && nodes[i].id == id
                              && FindNode(nodes, id) == Some(nodes[i]))
    ensures FindNode(nodes, id) == Some(nodes[i]) && (forall j | 0 <= j < i :: nodes[j].id != id) ==>
              WithProbe(nodes, id, health, roundTrip, at)[i] == Probed(nodes[i], health, roundTrip, at)
  {
    if nodes[0].id != id {
      if i > 0 {
        ProbeChangesHealthOnly(nodes[1..], id, health, roundTrip, at, i - 1);
      } else {
        WithProbeLength(nodes[1..], id, health, roundTrip, at);
      }
    }
  }

  lemma {:induction false} WithProbeLength(nodes: seq<Node>, id: string, health: Health, roundTrip: nat, at: Time)
    ensures |WithProbe(nodes, id, health, roundTrip, at)| == |nodes|
  {
    if nodes != [] {
      WithProbeLength(nodes[1..], id, health, roundTrip, at);
    }
  }

  function Reprobed(s: RuntimeSnapshot, id: string, health: Health, roundTrip: nat, at: Time): RuntimeSnapshot {
    s.(generation := s.generation + 1, createdAt := at, nodes := WithProbe(s.nodes, id, health, roundTrip, at))
  }

  lemma ProbeAgrees(p: Platform, h: Holders, next: RuntimeSnapshot, now: Time, h': Holders)
    requires Agree(p, h) && h.m.snapshot.Some? && next.sessions == h.m.snapshot.value.sessions
    requires CommitProblem(p, h.m, next, now).None? && h' == h.(m := Committed(h.m, next))
    ensures Agree(p, h') && h'.m == h.m.(snapshot := Some(next))
  {
  }

  // ---------- the facade ----------

  datatype CallResult = Completed | Refusal

  class Runtime {
    const publisher: Publisher
    const refresher: Refresher
    var alive: bool

    constructor (refresher: Refresher)
      requires refresher.Ready() && Agree(refresher.publisher.platform, refresher.publisher.Held())
      ensures this.refresher == refresher && this.publisher == refresher.publisher && alive && Valid()
    {
      this.refresher := refresher;
      this.publisher := refresher.publisher;
      this.alive := true;
    }

    // What holds even after a torn publication.
    ghost predicate Connected()
      reads publisher, publisher.manager, publisher.selectors, publisher.selectors.socks
      reads publisher.subscriptions, publisher.subscriptions.store
    {
      refresher.publisher == publisher && refresher.Ready()
    }

    ghost predicate Valid()
      reads publisher, publisher.manager, publisher.selectors, publisher.selectors.socks
      reads publisher.subscriptions, publisher.subscriptions.store
    {
      Connected() && Agree(publisher.platform, publisher.Held())
    }

    // The stored aggregate passes the full check, as at every release before, and
    // the cache serves it, unless a move has failed its final check.
    lemma StoredIsServed()
      requires Connected() && Lawful(publisher.platform)
      ensures ServedValid(publisher.platform, publisher.subscriptions.store.state, publisher.ledger.Last().stamp,
                          publisher.subscriptions.address)
      ensures StateValid(publisher.platform, publisher.subscriptions.store.state, publisher.ledger.Last().stamp)
      ensures CacheShows(publisher.platform, publisher.subscriptions.store.state, publisher.subscriptions.cache)
              || Behind(publisher.platform, publisher.subscriptions.store.state, publisher.subscriptions.cache)
    {
      LedgerValid(publisher.platform, publisher.ledger);
    }

    // When a move of the listener goes through and when it fails at its end.
    lemma MoveDecided(target: string, written: Time, checked: Time, healthy: bool)
      requires Connected() && Lawful(publisher.platform)
      ensures var (p, s) := (publisher.platform, publisher.subscriptions.store.state);
              var movable := && Reconciled(p, s, target).Some?
                             && (Reconciled(p, s, target).value == s || (healthy && Timely(s, written)));
              && (Servable(p, s, target, written, checked, healthy) <==> movable && Timely(s, checked))
              && (FailsLast(p, s, target, written, checked, healthy) <==>
                  p.hostPort(target).Some? && movable && !Timely(s, checked))
              && (!Timely(s, checked) ==> checked < publisher.ledger.Last().stamp)
    {
      LedgerValid(publisher.platform, publisher.ledger);
      MoveFailsExactly(publisher.platform, publisher.ledger.Last(), target, written, checked, healthy);
    }

    // Without its session the stored aggregate can be written at any reading.
    lemma SessionDroppable(now: Time)
      requires Connected() && Lawful(publisher.platform)
      ensures StateValid(publisher.platform, publisher.subscriptions.store.state.(active := None), now)
    {
      LedgerValid(publisher.platform, publisher.ledger);
    }

    // Both records only grow; the fetchers under way are the same.
    twostate predicate Grown()
      reads publisher
    {
      refresher.publisher == publisher && refresher.Grown()
    }

    // Set the access verifier once, first on disk, then as the binding key.
    method AccessSetup(verifier: Key, now: Time, healthy: bool) returns (r: CallResult)
      requires Valid()
      modifies publisher, publisher.manager, publisher.subscriptions.store
      ensures Valid() && Grown()
      ensures r == Completed <==>
                && old(alive) && old(publisher.manager.key).None? && healthy
                && StateValid(publisher.platform,
                              old(publisher.subscriptions.store.state).(verifier := Some(verifier)), now)
      ensures r == Completed ==>
                publisher.Held() == old(publisher.Held()).(
                  m := old(publisher.manager.View()).(key := Some(verifier)),
                  durable := old(publisher.subscriptions.store.state).(verifier := Some(verifier)))
      ensures r == Refusal ==> publisher.Held() == old(publisher.Held())
    {
      var store := publisher.subscriptions.store;
      if !alive || store.state.verifier.Some? {
        return Refusal;
      }
      var written := store.Write(store.state.(verifier := Some(verifier)), now, healthy);
      if !written {
        return Refusal;
      }
      // The manager has no key while the store had no verifier.
      var err := publisher.manager.ConfigureBindingKey(verifier);
      publisher.Record(SetKey(verifier), Idle);
      publisher.BookVerifier(verifier);
      SetUpAgrees(publisher.platform, old(publisher.Held()), verifier, publisher.Held());
      return Completed;
    }

    method Login(a: Answers, display: string, t: Moments, e: Circumstances)
      returns (r: CallResult, ghost conclusion: ControlResult)
      requires Valid()
      modifies publisher, publisher.manager, publisher.subscriptions, publisher.subscriptions.store
      modifies publisher.selectors, publisher.selectors.socks
      ensures Connected() && Grown() && (!conclusion.Torn? ==> Valid())
      ensures conclusion.Torn? ==> e.committed < e.checked && !Marked(a)
      ensures !old(alive) ==> publisher.Held() == old(publisher.Held()) && r == Refusal && conclusion == Rejected
      ensures old(alive) ==>
                && Concludes(old(refresher.Ask(a, display, t, e)), old(publisher.Held()), LoginOperation, conclusion,
                             publisher.Held())
                && (r == Completed <==> conclusion.Done?)
      ensures r == Completed ==>
                publisher.manager.snapshot.Some? && SessionsFrom(a, publisher.manager.snapshot.value.sessions)
    {
      if !alive {
        conclusion := Rejected;
        r := Refusal;
        return;
      }
      ghost var q, h := refresher.Ask(a, display, t, e), publisher.Held();
      var outcome := refresher.Login(a, display, t, e);
      conclusion := outcome;
      if outcome.Torn? {
        TornEnds(q, h, LoginOperation, publisher.Held());
      } else {
        ConclusionAgrees(q, h, LoginOperation, outcome, publisher.Held());
      }
      // A login that reports success has left a session behind.
      var current := publisher.manager.snapshot;
      r := if outcome.Done? && current.Some? && current.value.sessions.Valid() then Completed else Refusal;
    }

    // Durable authority goes first; the manager signs out only after that.
    method Logout(now: Time, healthy: bool) returns (r: CallResult)
      requires Valid()
      modifies publisher, publisher.manager, publisher.subscriptions.store
      ensures Valid() && Grown()
      ensures r == Completed <==>
                alive && healthy && StateValid(publisher.platform,
                                               old(publisher.subscriptions.store.state).(active := None), now)
      ensures Lawful(publisher.platform) ==> (r == Completed <==> alive && healthy)
      ensures r == Completed ==>
                && publisher.Held() == old(publisher.Held()).(
                  m := SignOut(old(publisher.manager.View())),
                  durable := old(publisher.subscriptions.store.state).(active := None))
                && publisher.manager.phase == SignedOut && !publisher.manager.View().HoldsSessions()
      ensures r == Refusal ==> publisher.Held() == old(publisher.Held())
    {
      var store := publisher.subscriptions.store;
      if !alive {
        return Refusal;
      }
      if Lawful(publisher.platform) {
        SessionDroppable(now);
      }
      var written := store.Write(store.state.(active := None), now, healthy);
      if !written {
        return Refusal;
      }
      publisher.manager.LogOut();
      publisher.Record(LogOff, Idle);
      publisher.BookClear();
      SignedOutAgrees(publisher.platform, old(publisher.Held()), publisher.Held());
      return Completed;
    }

    // Drop the stored session; a failing disk leaves it.
    method ClearActiveSession(now: Time, healthy: bool) returns (ok: bool)
      requires Connected() && !publisher.manager.View().HoldsSessions()
      modifies publisher, publisher.subscriptions.store
      ensures Connected() && Grown() && publisher.history == old(publisher.history) && (old(Valid()) ==> Valid())
      ensures ok <==>
                && healthy
                && StateValid(publisher.platform, old(publisher.subscriptions.store.state).(active := None), now)
      ensures Lawful(publisher.platform) ==> ok == healthy
      ensures publisher.Held() == old(publisher.Held()).(durable := if ok
                                                         then old(publisher.subscriptions.store.state).(active := None)
                                                                    else old(publisher.subscriptions.store.state))
    {
      var store := publisher.subscriptions.store;
      if Lawful(publisher.platform) {
        SessionDroppable(now);
      }
      ok := store.Write(store.state.(active := None), now, healthy);
      if ok {
        publisher.BookClear();
        if old(Valid()) {
          ClearedAgrees(publisher.platform, old(publisher.Held()), publisher.Held());
        }
      }
    }

    // settled is what was held when the refresher returned; after that only an
    // expired manager gives up the durable session.
    method Refresh(a: Answers, t: Moments, e: Circumstances, healthy: bool)
      returns (r: CallResult, ghost conclusion: ControlResult, ghost settled: Holders)
      requires Valid()
      modifies publisher, publisher.manager, publisher.subscriptions, publisher.subscriptions.store
      modifies publisher.selectors, publisher.selectors.socks
      ensures Connected() && Grown() && (!conclusion.Torn? ==> Valid())
      ensures conclusion.Torn? ==> e.committed < e.checked && !Marked(a)
      ensures !old(alive) ==> publisher.Held() == old(publisher.Held()) && r == Refusal && conclusion == Rejected
      ensures old(alive) ==>
                RefreshEnds(old(refresher.Ask(a, DisplayOf(publisher.manager.View()), t, e)), old(publisher.Held()),
                            conclusion, settled)
      ensures old(alive) ==>
                var gone := settled.durable.(active := None);
                var cleared := !conclusion.Done? && settled.m.phase == ServiceState.Expired && healthy
                    && StateValid(publisher.platform, gone, t.finished);
                publisher.Held() == if cleared then settled.(durable := gone) else settled
      ensures old(alive) ==> (r == Completed <==> conclusion.Done?)
      ensures r == Completed ==>
                publisher.manager.snapshot.Some? && SessionsFrom(a, publisher.manager.snapshot.value.sessions)
    {
      if !alive {
        r, conclusion, settled := Refusal, Rejected, publisher.Held();
        return;
      }
      ghost var q := refresher.Ask(a, DisplayOf(publisher.manager.View()), t, e);
      var before := publisher.manager.snapshot;
      var outcome := refresher.Refresh(a, t, e);
      conclusion, settled := outcome, publisher.Held();
      RefreshAgrees(q, old(publisher.Held()), outcome, settled);
      if !outcome.Done? {
        if publisher.manager.phase == ServiceState.Expired {
          ghost var ledger := publisher.ledger;
          var cleared := ClearActiveSession(t.finished, healthy);
          LedgerGrows(old(publisher.ledger), ledger, publisher.ledger);
        }
        r := Refusal;
        return;
      }
      var current := publisher.manager.snapshot;
      r := if current.Some? && before.Some? && before.value.generation < current.value.generation
          && current.value.sessions.Valid()
           then Completed else Refusal;
    }

    // The expiry half of a heartbeat; its refresh is a separate call.
    method Sweep(now: Time, healthy: bool) returns (expired: bool)
      requires Valid()
      modifies publisher, publisher.manager, publisher.subscriptions.store
      ensures Valid() && Grown()
      ensures expired <==> old(alive) && Due(old(publisher.manager.View()), now)
      ensures expired ==> !publisher.manager.View().HoldsSessions()
      ensures publisher.manager.View() == if expired
              && old(publisher.manager.phase) in {ServiceState.Ready, ServiceState.Degraded}
                                          then ExpireLocked(old(publisher.manager.View()), now)
                                              else old(publisher.manager.View())
      ensures !expired ==> publisher.Held() == old(publisher.Held())
      ensures expired ==>
                var stored := old(publisher.subscriptions.store.state);
                publisher.subscriptions.store.state ==
                if healthy && StateValid(publisher.platform, stored.(active := None), now) then stored.(active := None)
                    else stored
    {
      if !alive {
        return false;
      }
      var failed;
      expired, failed := refresher.ExpireIfNeeded(now);
      if expired {
        ExpiryAgrees(publisher.platform, old(publisher.Held()), now, publisher.Held());
        ghost var ledger := publisher.ledger;
        var cleared := ClearActiveSession(now, healthy);
        LedgerGrows(old(publisher.ledger), ledger, publisher.ledger);
      }
    }

    // First hold of a probe: choose the target.
    method ProbeStart(nodeID: string, now: Time) returns (target: Option<ProbeTarget>)
      requires Valid()
      ensures target.Some? ==> StillMatches(target.value, publisher.manager.snapshot) && target.value.id == nodeID
      ensures target.Some? <==>
                && alive && SessionUsable(publisher.manager.snapshot, now)
                && FindNode(publisher.manager.snapshot.value.nodes, nodeID).Some?
                && FindNode(publisher.manager.snapshot.value.nodes, nodeID).value.TunnelEligible()
    {
      var current := publisher.manager.snapshot;
      if !alive || !SessionUsable(current, now) {
        return None;
      }
      var node := NodeByID(current.value.nodes, nodeID);
      if node.None? || !node.value.TunnelEligible() {
        return None;
      }
      return Some(ProbeTarget(current.value.generation, node.value.id, node.value.selector, node.value.provider,
                              node.value.host, node.value.port));
    }

    // Second hold, after the connection attempt: record the health, unless the
    // snapshot has changed since. Only the runtime snapshot moves on.
    method ProbeFinish(target: ProbeTarget, health: Health, roundTrip: nat, observed: Time, now: Time)
      returns (updated: bool)
      requires Valid()
      modifies publisher, publisher.manager
      ensures Valid() && Grown()
      ensures updated <==>
                && alive && StillMatches(target, old(publisher.manager.snapshot))
                    && SessionUsable(old(publisher.manager.snapshot), now)
                && CommitProblem(publisher.platform, old(publisher.manager.View()),
                                 Reprobed(old(publisher.manager.snapshot).value, target.id, health, roundTrip,
                                          observed), now).None?
      ensures updated ==>
                publisher.Held() == old(publisher.Held()).(m := old(publisher.manager.View()).(
                  snapshot := Some(Reprobed(old(publisher.manager.snapshot).value, target.id, health, roundTrip,
                                            observed))))
      ensures !updated ==> publisher.Held() == old(publisher.Held())
    {
      var current := publisher.manager.snapshot;
      var matches := MatchTarget(target, current);
      if !alive || !matches || !SessionUsable(current, now) {
        return false;
      }
      var nodes := UpdateProbe(current.value.nodes, target.id, health, roundTrip, observed);
      var next := current.value.(generation := current.value.generation + 1, createdAt := observed, nodes := nodes);
      assert next == Reprobed(current.value, target.id, health, roundTrip, observed);
      var err := publisher.manager.Commit(next, now);
      if err.Some? {
        return false;
      }
      publisher.Record(Reprobe(next, now), Idle);
      ProbeAgrees(publisher.platform, old(publisher.Held()), next, now, publisher.Held());
      return true;
    }

    method MatchTarget(target: ProbeTarget, current: Option<RuntimeSnapshot>) returns (matches: bool)
      ensures matches <==> StillMatches(target, current)
    {
      if current.None? || current.value.generation != target.generation {
        return false;
      }
      var node := NodeByID(current.value.nodes, target.id);
      return node.Some? && node.value.selector == target.selector && node.value.provider == target.provider
          && node.value.host == target.host && node.value.port == target.port;
    }

    method UpdateProbe(nodes: seq<Node>, id: string, health: Health, roundTrip: nat, at: Time)
      returns (updated: seq<Node>)
      ensures updated == WithProbe(nodes, id, health, roundTrip, at)
    {
      for i := 0 to |nodes|
        invariant forall j | 0 <= j < i :: nodes[j].id != id
      {
        if nodes[i].id == id {
          WithProbeAt(nodes, i, id, health, roundTrip, at);
          return nodes[i := nodes[i].(health := health, roundTrip := roundTrip, probedAt := at)];
        }
      }
      WithProbeAt(nodes, |nodes|, id, health, roundTrip, at);
      return nodes;
    }

    // A fetcher claims the recording of what it has sent; it needs only the lock
    // of the subscription service.
    method ClaimFetch(generation: nat, hash: Key) returns (claimed: bool)
      requires Valid()
      modifies publisher, publisher.subscriptions
      ensures Valid() && publisher.history == old(publisher.history) && publisher.ledger.Extends(old(publisher.ledger))
      ensures claimed == MayClaim(old(publisher.subscriptions.cache), generation, hash)
      ensures publisher.Held() == old(publisher.Held()).(
                cache := old(publisher.subscriptions.cache).(fetching := claimed
                                                               || old(publisher.subscriptions.cache).fetching))
      ensures publisher.ledger.Last().inFlight == old(publisher.ledger.Last().inFlight) + if claimed
              then multiset{(generation, hash)} else multiset{}
    {
      claimed := publisher.subscriptions.ClaimFetch(generation, hash);
      if claimed {
        publisher.BookClaim(generation, hash);
      }
    }

    // The same fetcher records it, if it is still what is served.
    method RecordFetch(generation: nat, hash: Key, at: Time, now: Time, healthy: bool)
      returns (ghost outcome: FetchOutcome)
      requires Valid() && (generation, hash) in publisher.ledger.Last().inFlight
      modifies publisher, publisher.subscriptions, publisher.subscriptions.store
      ensures Valid() && publisher.history == old(publisher.history) && publisher.ledger.Extends(old(publisher.ledger))
      ensures outcome == FetchOutcomeOf(publisher.platform, old(publisher.subscriptions.store.state),
                                        old(publisher.subscriptions.cache),
                                        generation, hash, at, now, publisher.subscriptions.address, healthy)
      ensures var (durable, cache) := AfterFetch(publisher.platform, old(publisher.subscriptions.store.state),
                                                 old(publisher.subscriptions.cache), generation, hash, at, outcome);
              publisher.Held() == old(publisher.Held()).(durable := durable, cache := cache)
      ensures publisher.ledger.Last().inFlight == old(publisher.ledger.Last().inFlight) - multiset{(generation, hash)}
    {
      outcome := publisher.subscriptions.RecordFetch(generation, hash, at, now, healthy);
      publisher.BookFetch(generation, hash, at, now, healthy, outcome);
      FetchAgrees(publisher.platform, old(publisher.Held()), generation, hash, at, outcome, publisher.Held());
    }

    // Serving moves to another address of the listener. A final check that fails
    // leaves record and address moved and the cache behind them.
    method MoveListener(target: string, written: Time, checked: Time, readable: bool, healthy: bool) returns (ok: bool)
      requires Valid()
      modifies publisher, publisher.subscriptions, publisher.subscriptions.store
      ensures Valid() && Grown()
      ensures publisher.history == old(publisher.history) && publisher.manager.View() == old(publisher.manager.View())
      ensures ok <==>
                && publisher.platform.hostPort(target).Some?
                && (target == old(publisher.subscriptions.address)
                    || (readable && Servable(publisher.platform, old(publisher.subscriptions.store.state), target,
                                             written, checked, healthy)))
      ensures var s := old(publisher.subscriptions.store.state);
              var moved := if ok then target != old(publisher.subscriptions.address)
                           else readable && FailsLast(publisher.platform, s, target, written, checked, healthy);
              && publisher.subscriptions.address == (if moved then target else old(publisher.subscriptions.address))
              && Some(publisher.subscriptions.store.state) ==
                 (if moved then Reconciled(publisher.platform, s, target) else Some(s))
              && publisher.subscriptions.cache ==
                 if ok && moved
                 then Prime(publisher.platform, publisher.subscriptions.store.state, old(publisher.subscriptions.cache))
                 else old(publisher.subscriptions.cache)
    {
      ghost var (s, from) := (publisher.subscriptions.store.state, publisher.subscriptions.address);
      ok := publisher.subscriptions.SetSocksAddress(target, written, checked, readable, healthy);
      if ok && target != from {
        publisher.BookMove(target, checked);
        MoveAgrees(publisher.platform, old(publisher.Held()), target, publisher.Held());
      } else if !ok && readable && FailsLast(publisher.platform, s, target, written, checked, healthy) {
        publisher.BookStall(target, written, checked, healthy);
        MoveAgrees(publisher.platform, old(publisher.Held()), target, publisher.Held());
      }
    }

    // Only memory is wiped; the durable session is for the next process.
    method Stop()
      requires Valid()
      modifies this, publisher, publisher.manager
      ensures Valid() && publisher.history.Extends(old(publisher.history)) && !alive
      ensures publisher.Held() == old(publisher.Held()).(m := SignOut(old(publisher.manager.View())))
              && !publisher.manager.View().HoldsSessions()
    {
      alive := false;
      publisher.manager.LogOut();
      publisher.Record(LogOff, Idle);
      StoppedAgrees(publisher.platform, old(publisher.Held()), publisher.Held());
    }
  }

  lemma RefreshAgrees(q: Request, h: Holders, r: ControlResult, h': Holders)
    requires Agree(q.platform, h) && RefreshEnds(q, h, r, h')
    ensures !r.Torn? ==> Agree(q.platform, h')
    ensures r.Torn? ==> q.e.committed < q.e.checked && !Marked(q.answers)
    ensures h'.m.phase == ServiceState.Expired ==> !h'.m.HoldsSessions()
    ensures !r.Done? ==>
              h'.registry == h.registry && h'.m.subscription == h.m.subscription
                  && (!r.Torn? ==> h'.durable == h.durable)
    ensures r.Done? ==>
              && h.m.snapshot.Some? && h'.m.snapshot.Some?
                  && h.m.snapshot.value.generation < h'.m.snapshot.value.generation
              && h'.m.HoldsSessions()
  {
    if r.Lapsed? {
      assert !WIPED.Valid();
    } else if r.Torn? {
      TornEnds(q, h, RefreshOperation, h');
    } else {
      ConclusionAgrees(q, h, RefreshOperation, r, h');
    }
  }
}
