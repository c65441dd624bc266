/**
 Publication of a control snapshot: the selector coordinator with its rollback
 (internal/app/selector_coordinator.go) and the saga that makes manager,
 registries, durable aggregate and cache adopt one generation or none
 (internal/app/runtime.go, CommitControlSnapshotLocked). A ghost history records
 every change a SOCKS handler could see.
 */
module Publication {
  import opened Foundations
  import opened StateTypes
  import opened Platform
  import opened Credentials
  import opened Manager
  import opened Durable
  import opened Acceptance
  import opened Subscriptions
  import opened FetchProof
  import opened Control

  // ---------- the SOCKS side ----------

  class SocksServer {
    var selectors: Registry

    constructor (selectors: Registry)
      ensures this.selectors == selectors
    {
      this.selectors := selectors;
    }

    method SetSelectors(registry: Registry)
      modifies this
      ensures selectors == registry
    {
      selectors := registry;
    }
  }

  // ---------- the coordinator ----------

  function OfGeneration(selectors: Selectors, generation: nat): Selectors {
    map name | name in selectors && selectors[name].generation == generation :: selectors[name]
  }

  method SelectorsForGeneration(selectors: Selectors, generation: nat) returns (chosen: Selectors)
    ensures chosen == OfGeneration(selectors, generation)
  {
    chosen := map[];
    var rest := selectors.Keys;
    while rest != {}
      invariant rest <= selectors.Keys
      invariant chosen == map name | name in selectors && name !in rest && selectors[name].generation == generation ::
                  selectors[name]
    {
      var name :| name in rest;
      if selectors[name].generation == generation {
        chosen := chosen[name := selectors[name]];
      }
      rest := rest - {name};
    }
  }

  // The snapshot with its nodes and references built again under a registry.
  ghost predicate RebuiltUnder(p: Platform, registry: Registry, snapshot: RuntimeSnapshot, now: Time,
                               rebuilt: RuntimeSnapshot) {
    && rebuilt == snapshot.(nodes := rebuilt.nodes, selectors := rebuilt.selectors)
    && IsBuild(p, registry, registry.generation, snapshot.nodes, OfGeneration(snapshot.selectors, registry.generation),
               now,
               BuildResult(rebuilt.nodes, rebuilt.selectors))
  }

  ghost predicate CannotRebuild(p: Platform, id: nat, g: SubscriptionGeneration, snapshot: RuntimeSnapshot) {
    var registry := NewRegistry(id, g);
    registry.None? || BuildProblem(p, registry.value, g.number, snapshot.nodes,
                                   OfGeneration(snapshot.selectors, g.number)).Some?
  }

  lemma BuildRefersOnly(p: Platform, reg: Registry, want: nat, nodes: seq<Node>, previous: Selectors, now: Time,
                        r: BuildResult)
    requires IsBuild(p, reg, want, nodes, previous, now, r)
    ensures RefersOnlyTo(r.selectors, want)
  {
    forall name | name in r.selectors
      ensures r.selectors[name].generation == want
    {
      if r.selectors[name].tombstoned {
        assert name in Tombstones(r.selectors);
      }
    }
  }

  class SelectorCoordinator {
    const platform: Platform
    const socks: SocksServer
    var registry: Registry
    var nextId: nat

    constructor (platform: Platform, socks: SocksServer, registry: Registry)
      ensures this.platform == platform && this.socks == socks && this.registry == registry && nextId == registry.id + 1
    {
      this.platform := platform;
      this.socks := socks;
      this.registry := registry;
      this.nextId := registry.id + 1;
    }

    method InstallGeneration(g: SubscriptionGeneration, snapshot: RuntimeSnapshot, now: Time)
      returns (r: Option<(RuntimeSnapshot, Registry)>)
      modifies this, socks
      ensures r.None? <==> CannotRebuild(platform, old(nextId), g, snapshot)
      ensures r.None? ==> registry == old(registry) && nextId == old(nextId) && socks.selectors == old(socks.selectors)
      ensures r.Some? ==>
                && Some(registry) == NewRegistry(old(nextId), g) && nextId == old(nextId) + 1
                && socks.selectors == registry && r.value.1 == old(registry)
                && RebuiltUnder(platform, registry, snapshot, now, r.value.0)
    {
      var next := MakeRegistry(nextId, g);
      if next.None? {
        return None;
      }
      var previous := SelectorsForGeneration(snapshot.selectors, g.number);
      var built := BuildWithTombstones(platform, next.value, g.number, snapshot.nodes, previous, now);
      if built.Err? {
        return None;
      }
      var before := registry;
      socks.SetSelectors(next.value);
      registry := next.value;
      nextId := nextId + 1;
      return Some((snapshot.(nodes := built.value.nodes, selectors := built.value.selectors), before));
    }

    method Rollback(previous: Registry)
      modifies this, socks
      ensures registry == previous && socks.selectors == previous && nextId == old(nextId)
    {
      socks.SetSelectors(previous);
      registry := previous;
    }
  }

  // ---------- the saga ----------

  // Clock readings and outcomes of the outside world during one publication.
  // Readable is also false once the process began to stop: its flag falls before
  // the stopping call takes the lock.
  datatype Circumstances = Circumstances(planned: Time, built: Time, created: Time, checked: Time, committed: Time,
                                         undone: Time,
                                         entropy: Option<(Key, Key)>, readable: bool, writable: bool, rewritable: bool)

  datatype Hurdle = Planning | Binding | Building | Storing

  datatype PublishResult = Published(snapshot: RuntimeSnapshot) | Stopped(hurdle: Hurdle) | Aborted(restored: bool)

  // All holders at one moment.
  datatype Holders = Holders(m: ManagerState, registry: Registry, socks: Registry, durable: PersistentState,
                             cache: Cache)

  ghost function PlanOf(p: Platform, h: Holders, snapshot: RuntimeSnapshot, e: Circumstances): Option<CommitPlan> {
    if !snapshot.sessions.Valid() || !e.readable then None
    else Plan(p, h.durable, snapshot.sessions.UserID(), e.planned, e.entropy)
  }

  ghost predicate AdoptedInMemory(p: Platform, h: Holders, id: nat, g: SubscriptionGeneration,
                                  snapshot: RuntimeSnapshot, rebuilt: RuntimeSnapshot, built: Time, h': Holders) {
    && h'.m == Committed(h.m.(subscription := g), rebuilt) && h'.m.snapshot == Some(rebuilt)
    && Some(h'.registry) == NewRegistry(id, g) && h'.socks == h'.registry && h'.registry.Holds(g)
    && RebuiltUnder(p, h'.registry, snapshot, built, rebuilt)
  }

  ghost predicate AdoptedDurably(p: Platform, h: Holders, plan: CommitPlan, rebuilt: RuntimeSnapshot, address: string,
                                 e: Circumstances, h': Holders) {
    && Candidate(p, h.durable, plan, rebuilt, address, e.created) == Some(h'.durable)
    && ServedValid(p, h'.durable, e.checked, address)
    && h'.durable.subscription == plan.generation && h'.durable.active == Some(rebuilt)
        && h'.durable.verifier == h.durable.verifier
    && h'.cache == Prime(p, h'.durable, h.cache)
  }

  // Every holder carries the planned generation and the same snapshot.
  ghost predicate Adopted(p: Platform, h: Holders, id: nat, snapshot: RuntimeSnapshot, rebuilt: RuntimeSnapshot,
                          address: string, e: Circumstances, h': Holders) {
    var plan := PlanOf(p, h, snapshot, e);
    && plan.Some? && e.writable && Installable(p, h.m, plan.value.generation, snapshot.sessions.UserID())
    && AdoptedInMemory(p, h, id, plan.value.generation, snapshot, rebuilt, e.built, h')
    && AdoptedDurably(p, h, plan.value, rebuilt, address, e, h')
  }

  // Nothing changed; the cache may have been primed again, which changes no more
  // than the flag of a cache that shows the record already.
  ghost predicate Untouched(p: Platform, h: Holders, h': Holders) {
    h' == h.(cache := h'.cache) && (h'.cache == h.cache || CacheShows(p, h.durable, h'.cache))
  }

  // Why a publication stops before anything is durable.
  ghost predicate Stops(p: Platform, h: Holders, id: nat, snapshot: RuntimeSnapshot, hurdle: Hurdle, address: string,
                        e: Circumstances) {
    var plan := PlanOf(p, h, snapshot, e);
    match hurdle
    case Planning => plan.None?
    case Binding => plan.Some? && !Installable(p, h.m, plan.value.generation, snapshot.sessions.UserID())
    case Building => plan.Some? && CannotRebuild(p, id, plan.value.generation, snapshot)
    case Storing => plan.Some? && (!e.writable || Unservable(p, h, id, plan.value, snapshot, address, e))
  }

  // The aggregate of the rebuilt snapshot does not pass the durable checks.
  ghost predicate Unservable(p: Platform, h: Holders, id: nat, plan: CommitPlan, snapshot: RuntimeSnapshot,
                             address: string, e: Circumstances) {
    var registry := NewRegistry(id, plan.generation);
    registry.Some? && exists rebuilt ::
      && RebuiltUnder(p, registry.value, snapshot, e.built, rebuilt)
      && var stored := Candidate(p, h.durable, plan, rebuilt, address, e.created);
      stored.None? || !ServedValid(p, stored.value, e.checked, address)
  }

  // The manager refuses what has just become durable.
  ghost predicate StoredButRefused(p: Platform, h: Holders, id: nat, snapshot: RuntimeSnapshot,
                                   rebuilt: RuntimeSnapshot, address: string, e: Circumstances) {
    var plan := PlanOf(p, h, snapshot, e);
    && plan.Some? && e.writable
    && var (registry, stored) := (NewRegistry(id, plan.value.generation),
                                  Candidate(p, h.durable, plan.value, rebuilt, address, e.created));
    && registry.Some? && RebuiltUnder(p, registry.value, snapshot, e.built, rebuilt)
    && stored.Some? && ServedValid(p, stored.value, e.checked, address)
    && Installable(p, h.m, plan.value.generation, plan.value.userID)
    && CommitProblem(p, h.m.(subscription := plan.value.generation), rebuilt, e.committed).Some?
  }

  // It was refused, and the aggregate before it could not be written back.
  ghost predicate TornApart(p: Platform, h: Holders, id: nat, snapshot: RuntimeSnapshot, address: string,
                            e: Circumstances, h': Holders) {
    && !(e.rewritable && StateValid(p, h.durable, e.undone))
    && exists rebuilt ::
      && StoredButRefused(p, h, id, snapshot, rebuilt, address, e)
      && var stored := Candidate(p, h.durable, PlanOf(p, h, snapshot, e).value, rebuilt, address, e.created);
      stored.Some? && h' == h.(durable := stored.value, cache := Prime(p, stored.value, h.cache))
  }

  lemma Tears(p: Platform, h: Holders, id: nat, snapshot: RuntimeSnapshot, rebuilt: RuntimeSnapshot, address: string,
              e: Circumstances, h': Holders)
    requires StoredButRefused(p, h, id, snapshot, rebuilt, address, e)
             && !(e.rewritable && StateValid(p, h.durable, e.undone))
    requires var stored := Candidate(p, h.durable, PlanOf(p, h, snapshot, e).value, rebuilt, address, e.created);
             stored.Some? && h' == h.(durable := stored.value, cache := Prime(p, stored.value, h.cache))
    ensures TornApart(p, h, id, snapshot, address, e, h')
  {
  }

  // How a publication ends: adopted by every holder, stopped with nothing
  // changed, or aborted by the manager's refusal with the way back taken, all of
  // it if the disk allowed.
  ghost predicate Ends(p: Platform, h: Holders, id: nat, snapshot: RuntimeSnapshot, address: string, e: Circumstances,
                       r: PublishResult, h': Holders)
  {
    match r
    case Published(s) => Adopted(p, h, id, snapshot, s, address, e, h')
    case Stopped(hurdle) => Stops(p, h, id, snapshot, hurdle, address, e) && h' == h
    case Aborted(restored) =>
      && Refused(p, h, id, snapshot, address, e)
      && if restored then Untouched(p, h, h') else TornApart(p, h, id, snapshot, address, e, h')
  }

  ghost predicate Refused(p: Platform, h: Holders, id: nat, snapshot: RuntimeSnapshot, address: string,
                          e: Circumstances) {
    exists rebuilt :: StoredButRefused(p, h, id, snapshot, rebuilt, address, e)
  }

  lemma AbortEnds(p: Platform, h: Holders, id: nat, snapshot: RuntimeSnapshot, rebuilt: RuntimeSnapshot,
                  address: string,
                  e: Circumstances, restored: bool, h': Holders)
    requires StoredButRefused(p, h, id, snapshot, rebuilt, address, e)
    requires restored <==> e.rewritable && StateValid(p, h.durable, e.undone)
    requires restored ==> Untouched(p, h, h')
    requires var stored := Candidate(p, h.durable, PlanOf(p, h, snapshot, e).value, rebuilt, address, e.created);
             !restored ==> stored.Some? && h' == h.(durable := stored.value, cache := Prime(p, stored.value, h.cache))
    ensures Ends(p, h, id, snapshot, address, e, Aborted(restored), h')
  {
    if !restored {
      Tears(p, h, id, snapshot, rebuilt, address, e, h');
    }
  }

  // Only a clock that went back between the two checks makes the manager refuse
  // a snapshot newer than its own, and only one with a node without a session.
  lemma RefusedOnlyBackwards(p: Platform, h: Holders, id: nat, snapshot: RuntimeSnapshot, rebuilt: RuntimeSnapshot,
                             address: string, e: Circumstances)
    requires StoredButRefused(p, h, id, snapshot, rebuilt, address, e) && Newer(h.m, snapshot)
    ensures e.committed < e.checked && Sessionless(rebuilt)
  {
    var plan := PlanOf(p, h, snapshot, e).value;
    CommitRefusedExactly(p, h.m, h.durable, plan, rebuilt, address, e.created, e.checked, e.committed);
  }

  lemma UnservableStops(p: Platform, h: Holders, id: nat, plan: CommitPlan, snapshot: RuntimeSnapshot,
                        registry: Registry, rebuilt: RuntimeSnapshot, address: string, e: Circumstances)
    requires PlanOf(p, h, snapshot, e) == Some(plan) && NewRegistry(id, plan.generation) == Some(registry)
    requires RebuiltUnder(p, registry, snapshot, e.built, rebuilt)
    requires var stored := Candidate(p, h.durable, plan, rebuilt, address, e.created);
             !(e.writable && stored.Some? && ServedValid(p, stored.value, e.checked, address))
    ensures Stops(p, h, id, snapshot, Storing, address, e)
  {
  }

  lemma DurablyAdopted(p: Platform, h: Holders, plan: CommitPlan, rebuilt: RuntimeSnapshot, address: string,
                       e: Circumstances, h': Holders)
    requires Candidate(p, h.durable, plan, rebuilt, address, e.created) == Some(h'.durable)
             && ServedValid(p, h'.durable, e.checked, address)
    requires h'.cache == Prime(p, h'.durable, h.cache)
    ensures AdoptedDurably(p, h, plan, rebuilt, address, e, h')
  {
    CandidateHolds(p, h.durable, plan, rebuilt, address, e.created);
  }

  // On a healthy disk the storing step refuses a rebuilt snapshot exactly when
  // its sessions, lifetime or rendering are not in order: the selector passes
  // and the record never get in the way.
  lemma StoredExactlyWhenPublishable(p: Platform, h: Holders, plan: CommitPlan, snapshot: RuntimeSnapshot,
                                     registry: Registry, rebuilt: RuntimeSnapshot,
                                     address: string, e: Circumstances, earlier: Time)
    requires Lawful(p) && StateValid(p, h.durable, earlier) && PlanOf(p, h, snapshot, e) == Some(plan)
    requires e.planned != UNSET && e.created != UNSET
    requires e.entropy.Some? ==> |e.entropy.value.0| == KEY_SIZE && |e.entropy.value.1| == KEY_SIZE
    requires registry.Holds(plan.generation) && RebuiltUnder(p, registry, snapshot, e.built, rebuilt)
    requires DatedTombstones(snapshot.selectors) && "" !in snapshot.selectors
    ensures h.durable.verifier.Some?
    ensures (&& Candidate(p, h.durable, plan, rebuilt, address, e.created).Some?
             && ServedValid(p, Candidate(p, h.durable, plan, rebuilt, address, e.created).value, e.checked, address))
            <==> Publishable(p, plan.generation, h.durable.verifier.value, rebuilt, address, e.checked)
  {
    var previous := OfGeneration(snapshot.selectors, plan.generation.number);
    assert BuiltFor(p, registry, plan.generation, rebuilt, snapshot.nodes, previous, e.built);
    AcceptedExactlyWhenPublishable(p, registry, h.durable, plan, snapshot.sessions.UserID(), e.planned, e.entropy,
                                   rebuilt, snapshot.nodes, previous, e.built,
                                   address, e.created, earlier, e.checked);
  }

  predicate Newer(m: ManagerState, snapshot: RuntimeSnapshot) {
    m.snapshot.Some? ==> m.snapshot.value.generation < snapshot.generation
  }

  lemma CandidateHolds(p: Platform, before: PersistentState, plan: CommitPlan, rebuilt: RuntimeSnapshot,
                       address: string, created: Time)
    requires Candidate(p, before, plan, rebuilt, address, created).Some?
    ensures var c := Candidate(p, before, plan, rebuilt, address, created).value;
            c.active == Some(rebuilt) && c.subscription == plan.generation && c.verifier == before.verifier
    ensures HasEligible(rebuilt.nodes)
  {
    assert Renders(p, plan.generation, rebuilt.nodes, address);
    RendersSomething(p, plan.generation, rebuilt.nodes, address);
  }

  lemma ServedSnapshotValid(p: Platform, s: PersistentState, checked: Time, address: string, later: Time)
    requires ServedValid(p, s, checked, address) && s.active.Some? && checked <= later
    ensures ValidRuntimeSnapshot(s.active.value, later)
  {
    assert ValidActive(p, s, s.active.value, checked);
    SnapshotValidLater(s.active.value, checked, later);
  }

  // Once the aggregate is durable, the manager has no reason left to refuse it.
  lemma ManagerCommitCannotFail(p: Platform, m: ManagerState, before: PersistentState, plan: CommitPlan,
                                rebuilt: RuntimeSnapshot,
                                address: string, created: Time, checked: Time, committed: Time)
    requires Installable(p, m, plan.generation, rebuilt.sessions.UserID())
    requires rebuilt.sessions.Valid()
    requires Candidate(p, before, plan, rebuilt, address, created).Some?
    requires ServedValid(p, Candidate(p, before, plan, rebuilt, address, created).value, checked, address)
    requires checked <= committed
    requires m.snapshot.Some? ==> m.snapshot.value.generation < rebuilt.generation
    ensures CommitProblem(p, m.(subscription := plan.generation), rebuilt, committed).None?
  {
    CandidateHolds(p, before, plan, rebuilt, address, created);
    var c := Candidate(p, before, plan, rebuilt, address, created).value;
    ServedSnapshotValid(p, c, checked, address, committed);
    InstalledAccepts(p, m, plan.generation, rebuilt, committed);
  }

  lemma InstalledAccepts(p: Platform, m: ManagerState, g: SubscriptionGeneration, s: RuntimeSnapshot, now: Time)
    requires Installable(p, m, g, s.sessions.UserID()) && s.sessions.Valid()
    requires ValidRuntimeSnapshot(s, now) && HasEligible(s.nodes)
    requires m.snapshot.Some? ==> m.snapshot.value.generation < s.generation
    ensures CommitProblem(p, m.(subscription := g), s, now).None?
  {
  }

  // Without a word about clocks: once the aggregate is durable, the manager
  // refuses it exactly when it has not run out at its own reading and some node
  // has no session. The durable check lets that pass only if it had run out at
  // the earlier reading.
  lemma CommitRefusedExactly(p: Platform, m: ManagerState, before: PersistentState, plan: CommitPlan,
                             rebuilt: RuntimeSnapshot,
                             address: string, created: Time, checked: Time, committed: Time)
    requires Installable(p, m, plan.generation, rebuilt.sessions.UserID()) && rebuilt.sessions.Valid()
    requires Candidate(p, before, plan, rebuilt, address, created).Some?
    requires ServedValid(p, Candidate(p, before, plan, rebuilt, address, created).value, checked, address)
    requires m.snapshot.Some? ==> m.snapshot.value.generation < rebuilt.generation
    ensures CommitProblem(p, m.(subscription := plan.generation), rebuilt, committed).Some? <==>
            committed < rebuilt.expiresAt && Sessionless(rebuilt)
    ensures committed < rebuilt.expiresAt && Sessionless(rebuilt) ==> committed < checked
  {
    CandidateHolds(p, before, plan, rebuilt, address, created);
    ServedSnapshotValid(p, Candidate(p, before, plan, rebuilt, address, created).value, checked, address, checked);
    ValidBackwards(rebuilt, checked, committed);
    if ValidRuntimeSnapshot(rebuilt, committed) {
      InstalledAccepts(p, m, plan.generation, rebuilt, committed);
    }
  }

  class Publisher {
    const platform: Platform
    const manager: StateManager
    const subscriptions: Service
    const selectors: SelectorCoordinator
    ghost var history: History
    ghost var ledger: Ledger

    constructor (manager: StateManager, subscriptions: Service, selectors: SelectorCoordinator, ghost stamp: Time)
      requires manager.platform == subscriptions.platform == subscriptions.store.platform == selectors.platform
      requires selectors.registry == selectors.socks.selectors
      requires Sound(manager.platform, Control(manager.View(), selectors.registry, selectors.nextId, Idle))
      requires ServedValid(manager.platform, subscriptions.store.state, stamp, subscriptions.address)
      requires subscriptions.cache == Projection(manager.platform, subscriptions.store.state)
      ensures this.manager == manager && this.subscriptions == subscriptions && this.selectors == selectors
      ensures Wired() && Recorded() && Booked()
      ensures ledger == Ledger([World(subscriptions.store.state, subscriptions.cache, multiset{}, None,
                                      subscriptions.address, stamp)], [])
    {
      this.platform := manager.platform;
      this.manager := manager;
      this.subscriptions := subscriptions;
      this.selectors := selectors;
      this.history := History([Control(manager.View(), selectors.registry, selectors.nextId, Idle)], []);
      this.ledger := Ledger([World(subscriptions.store.state, subscriptions.cache, multiset{}, None,
                                   subscriptions.address, stamp)], []);
    }

    ghost predicate Wired() {
      manager.platform == platform && subscriptions.platform == platform && subscriptions.store.platform == platform
      && selectors.platform == platform
    }

    ghost function At(stage: Stage): Control
      reads manager, selectors, selectors.socks
    {
      Control(manager.View(), selectors.socks.selectors, selectors.nextId, stage)
    }

    // The history leads to the present state.
    ghost predicate Recorded()
      reads this, manager, selectors, selectors.socks
    {
      && selectors.registry == selectors.socks.selectors
      && IsHistory(platform, history) && history.Last() == At(Idle)
    }

    // The run of the subscription service leads to its present state.
    ghost predicate Booked()
      reads this, subscriptions, subscriptions.store
    {
      && IsLedger(platform, ledger)
      && ledger.Last() == World(subscriptions.store.state, subscriptions.cache, ledger.Last().inFlight, None,
                                subscriptions.address, ledger.Last().stamp)
    }

    ghost function Held(): Holders
      reads manager, selectors, selectors.socks, subscriptions, subscriptions.store
    {
      Holders(manager.View(), selectors.registry, selectors.socks.selectors, subscriptions.store.state,
              subscriptions.cache)
    }

    ghost method Record(change: Change, stage: Stage)
      requires IsHistory(platform, history) && Changes(platform, history.Last(), change, At(stage))
      modifies `history
      ensures IsHistory(platform, history) && history.Last() == At(stage) && history.Extends(old(history))
    {
      HistoryThen(platform, history, change, At(stage));
      history := history.Then(change, At(stage));
    }

    ghost method Book(step: Step, w: World)
      requires IsLedger(platform, ledger) && Next(platform, ledger.Last(), step, w)
      modifies `ledger
      ensures IsLedger(platform, ledger) && ledger.Last() == w && ledger.Extends(old(ledger))
    {
      LedgerThen(platform, ledger, step, w);
      ledger := ledger.Then(step, w);
    }

    // The world as it is now, with given fetchers and stamp.
    ghost function Present(inFlight: multiset<(nat, Key)>, stamp: Time): World
      reads subscriptions, subscriptions.store
    {
      World(subscriptions.store.state, subscriptions.cache, inFlight, None, subscriptions.address, stamp)
    }

    // The stored session has been dropped since the last entry.
    ghost method BookClear()
      requires IsLedger(platform, ledger)
      requires var w := ledger.Last();
               Present(w.inFlight, w.stamp) == w.(durable := w.durable.(active := None), publishing := None)
                   && w.publishing.None?
      modifies `ledger
      ensures Booked() && ledger.Extends(old(ledger)) && ledger.Last().inFlight == old(ledger.Last().inFlight)
    {
      var w := ledger.Last();
      Book(ClearActive, Present(w.inFlight, w.stamp));
    }

    ghost method BookVerifier(key: Key)
      requires IsLedger(platform, ledger) && |key| == KEY_SIZE
      requires var w := ledger.Last();
               w.durable.verifier.None? && w.publishing.None?
                   && Present(w.inFlight, w.stamp) == w.(durable := w.durable.(verifier := Some(key)))
      modifies `ledger
      ensures Booked() && ledger.Extends(old(ledger)) && ledger.Last().inFlight == old(ledger.Last().inFlight)
    {
      var w := ledger.Last();
      Book(SetVerifier(key), Present(w.inFlight, w.stamp));
    }

    ghost method BookClaim(generation: nat, hash: Key)
      requires IsLedger(platform, ledger)
      requires var w := ledger.Last();
               w.publishing.None? && MayClaim(w.cache, generation, hash)
               && Present(w.inFlight, w.stamp) == w.(cache := w.cache.(fetching := true))
      modifies `ledger
      ensures Booked() && ledger.Extends(old(ledger))
      ensures ledger.Last().inFlight == old(ledger.Last().inFlight) + multiset{(generation, hash)}
    {
      var w := ledger.Last();
      Book(Claim(generation, hash), Present(w.inFlight + multiset{(generation, hash)}, w.stamp));
    }

    ghost method BookFetch(generation: nat, hash: Key, at: Time, now: Time, healthy: bool, outcome: FetchOutcome)
      requires IsLedger(platform, ledger)
      requires var w := ledger.Last();
               && w.publishing.None? && (generation, hash) in w.inFlight
               && outcome == FetchOutcomeOf(platform, w.durable, w.cache, generation, hash, at, now, w.address, healthy)
               && var after := AfterFetch(platform, w.durable, w.cache, generation, hash, at, outcome);
               Present(w.inFlight, w.stamp) == w.(durable := after.0, cache := after.1)
      modifies `ledger
      ensures Booked() && ledger.Extends(old(ledger))
      ensures ledger.Last().inFlight == old(ledger.Last().inFlight) - multiset{(generation, hash)}
    {
      var w := ledger.Last();
      Book(Step.Record(generation, hash, at, now, healthy),
           Present(w.inFlight - multiset{(generation, hash)}, if outcome.Recorded? then now else w.stamp));
    }

    ghost method BookMove(target: string, checked: Time)
      requires IsLedger(platform, ledger) && platform.hostPort(target).Some?
      requires var w := ledger.Last();
               && w.publishing.None? && Reconciled(platform, w.durable, target) == Some(subscriptions.store.state)
               && ServedValid(platform, subscriptions.store.state, checked, target)
               && Present(w.inFlight, w.stamp) ==
                  w.(durable := subscriptions.store.state,
                     cache := Prime(platform, subscriptions.store.state, w.cache), address := target)
      modifies `ledger
      ensures Booked() && ledger.Extends(old(ledger)) && ledger.Last().inFlight == old(ledger.Last().inFlight)
    {
      var w := ledger.Last();
      Book(Move(target, checked), Present(w.inFlight, checked));
    }

    // A move has failed its final check.
    ghost method BookStall(target: string, written: Time, checked: Time, healthy: bool)
      requires IsLedger(platform, ledger)
      requires var w := ledger.Last();
               && w.publishing.None? && FailsLast(platform, w.durable, target, written, checked, healthy)
               && Present(w.inFlight, w.stamp) ==
                  w.(durable := Reconciled(platform, w.durable, target).value, address := target)
      modifies `ledger
      ensures Booked() && ledger.Extends(old(ledger)) && ledger.Last().inFlight == old(ledger.Last().inFlight)
    {
      var w := ledger.Last();
      Book(Stall(target, written, checked, healthy), Present(w.inFlight, w.stamp));
    }

    // The aggregate of a plan has become durable, checked at the given reading.
    ghost method BookCommit(plan: CommitPlan, snapshot: RuntimeSnapshot, e: Circumstances)
      requires IsLedger(platform, ledger)
      requires var w := ledger.Last();
               && w.publishing.None? && Plan(platform, w.durable, plan.userID, e.planned, e.entropy) == Some(plan)
               && Candidate(platform, w.durable, plan, snapshot, w.address,
                            e.created) == Some(subscriptions.store.state)
               && ServedValid(platform, subscriptions.store.state, e.checked, w.address)
               && Present(w.inFlight, w.stamp) ==
                  w.(durable := subscriptions.store.state, cache := Prime(platform, subscriptions.store.state, w.cache))
      modifies `ledger
      ensures IsLedger(platform, ledger) && ledger.Extends(old(ledger))
      ensures var w := old(ledger.Last());
              ledger.Last() == Present(w.inFlight, e.checked).(publishing := Some(Checked(w.durable, w.stamp)))
    {
      var w := ledger.Last();
      Book(Step.Commit(plan, plan.userID, e.planned, e.entropy, snapshot, e.created, e.checked),
           Present(w.inFlight, e.checked).(publishing := Some(Checked(w.durable, w.stamp))));
    }

    // The publication has ended, and the manager agrees.
    ghost method BookSettle()
      requires IsLedger(platform, ledger)
               && Present(ledger.Last().inFlight, ledger.Last().stamp) == ledger.Last().(publishing := None)
      modifies `ledger
      ensures Booked() && ledger.Extends(old(ledger)) && ledger.Last().inFlight == old(ledger.Last().inFlight)
    {
      Book(Settle, Present(ledger.Last().inFlight, ledger.Last().stamp));
    }

    // The aggregate before it was written back, or could not be.
    ghost method BookRestore(now: Time, healthy: bool, before: Cache)
      requires IsLedger(platform, ledger) && ledger.Last().publishing.Some? && ledger.Last().cache == before
      requires ledger.Last().address == subscriptions.address
      requires var (w, prior) := (ledger.Last(), ledger.Last().publishing.value.state);
               if healthy && StateValid(platform, prior, now)
               then subscriptions.store.state == prior && subscriptions.cache == Prime(platform, prior, before)
               else subscriptions.store.state == w.durable && subscriptions.cache == before
      modifies `ledger
      ensures Booked() && ledger.Extends(old(ledger)) && ledger.Last().inFlight == old(ledger.Last().inFlight)
    {
      var (w, prior) := (ledger.Last(), ledger.Last().publishing.value);
      Book(Restore(now, healthy),
           Present(w.inFlight, if healthy && StateValid(platform, prior.state, now) then prior.stamp else w.stamp));
    }

    method Publish(snapshot: RuntimeSnapshot, e: Circumstances) returns (r: PublishResult)
      requires Wired() && Recorded() && Booked()
      modifies this, manager, subscriptions, subscriptions.store, selectors, selectors.socks
      ensures Recorded() && history.Extends(old(history)) && subscriptions.address == old(subscriptions.address)
      ensures Booked() && ledger.Extends(old(ledger)) && ledger.Last().inFlight == old(ledger.Last().inFlight)
      ensures Ends(platform, old(Held()), old(selectors.nextId), snapshot, subscriptions.address, e, r, Held())
    {
      ghost var h, id := Held(), selectors.nextId;
      var prepared := Prepare(snapshot, e);
      if prepared.Err? {
        return Stopped(prepared.error);
      }
      var (plan, previous, previousRegistry, rebuilt) := prepared.value;
      ghost var registry, prefix := selectors.registry, history;
      r := Adopt(plan, previous, previousRegistry, rebuilt, e);
      HistoryGrows(old(history), prefix, history);
      if r.Published? {
        DurablyAdopted(platform, h, plan, rebuilt, subscriptions.address, e, Held());
      } else if r.Stopped? {
        UnservableStops(platform, h, id, plan, snapshot, registry, rebuilt, subscriptions.address, e);
      } else {
        AbortEnds(platform, h, id, snapshot, rebuilt, subscriptions.address, e, r.restored, Held());
      }
    }

    // The steps in memory: plan, install the generation, swap the registries.
    method Prepare(snapshot: RuntimeSnapshot, e: Circumstances)
      returns (r: Result<(CommitPlan, SubscriptionGeneration, Registry, RuntimeSnapshot), Hurdle>)
      requires Wired() && Recorded()
      modifies `history, manager, selectors, selectors.socks
      ensures IsHistory(platform, history) && history.Extends(old(history))
              && selectors.registry == selectors.socks.selectors
      ensures r.Err? ==>
                Recorded() && Held() == old(Held())
                    && Stops(platform, Held(), old(selectors.nextId), snapshot, r.error, subscriptions.address, e)
      ensures r.Err? ==> r.error != Storing
      ensures r.Ok? ==>
                var (plan, previous, previousRegistry, rebuilt) := r.value;
                && PlanOf(platform, old(Held()), snapshot, e) == Some(plan) && plan.userID == snapshot.sessions.UserID()
                && Installable(platform, old(manager.View()), plan.generation, plan.userID)
                && manager.View() == old(manager.View()).(subscription := plan.generation)
                && previous == old(manager.subscription) && previousRegistry == old(selectors.registry)
                && NewRegistry(old(selectors.nextId), plan.generation) == Some(selectors.registry)
                && RebuiltUnder(platform, selectors.registry, snapshot, e.built, rebuilt)
                    && RefersOnlyTo(rebuilt.selectors, plan.generation.number)
                && history.Last() == At(Swapped(previous, previousRegistry))
    {
      if !snapshot.sessions.Valid() {
        return Err(Planning);
      }
      var userID := snapshot.sessions.UserID();
      var plan := subscriptions.PrepareRuntimeCommit(userID, e.planned, e.entropy, e.readable);
      if plan.None? {
        return Err(Planning);
      }
      var generation := plan.value.generation;
      var previous := manager.InstallSubscriptionGeneration(generation, userID);
      if previous.None? {
        return Err(Binding);
      }
      Record(Change.Install(generation, userID), Installed(previous.value));
      var swapped := SwapRegistries(generation, previous.value, snapshot, e.built);
      if swapped.None? {
        return Err(Building);
      }
      return Ok((plan.value, previous.value, swapped.value.1, swapped.value.0));
    }

    method SwapRegistries(generation: SubscriptionGeneration, previous: SubscriptionGeneration,
                          snapshot: RuntimeSnapshot, now: Time)
      returns (r: Option<(RuntimeSnapshot, Registry)>)
      requires Wired() && IsHistory(platform, history) && history.Last() == At(Installed(previous))
      requires manager.subscription == generation && selectors.registry == selectors.socks.selectors
      modifies `history, manager, selectors, selectors.socks
      ensures IsHistory(platform, history) && history.Extends(old(history))
              && selectors.registry == selectors.socks.selectors
      ensures r.None? ==>
                && Recorded() && CannotRebuild(platform, old(selectors.nextId), generation, snapshot)
                && manager.View() == old(manager.View()).(subscription := previous)
                    && selectors.registry == old(selectors.registry)
                && selectors.nextId == old(selectors.nextId)
      ensures r.Some? ==>
                && manager.View() == old(manager.View()) && r.value.1 == old(selectors.registry)
                && NewRegistry(old(selectors.nextId), generation) == Some(selectors.registry)
                && RebuiltUnder(platform, selectors.registry, snapshot, now, r.value.0)
                    && RefersOnlyTo(r.value.0.selectors, generation.number)
                && history.Last() == At(Swapped(previous, r.value.1))
    {
      r := selectors.InstallGeneration(generation, snapshot, now);
      if r.None? {
        manager.ReinstallSubscription(generation, previous);
        Record(RestoreManager, Idle);
        return;
      }
      Record(Swap(selectors.registry), Swapped(previous, r.value.1));
      BuildRefersOnly(platform, selectors.registry, generation.number, snapshot.nodes,
                      OfGeneration(snapshot.selectors, generation.number),
                      now, BuildResult(r.value.0.nodes, r.value.0.selectors));
    }

    // The last two steps, and the way back through all of them.
    method Adopt(plan: CommitPlan, previous: SubscriptionGeneration, previousRegistry: Registry,
                 rebuilt: RuntimeSnapshot, e: Circumstances)
      returns (r: PublishResult)
      requires Wired() && IsHistory(platform, history) && history.Last() == At(Swapped(previous, previousRegistry))
      requires selectors.registry == selectors.socks.selectors && manager.subscription == plan.generation
      requires rebuilt.sessions.Valid() && rebuilt.sessions.UserID() == plan.userID
               && RefersOnlyTo(rebuilt.selectors, plan.generation.number)
      requires Booked() && Plan(platform, subscriptions.store.state, plan.userID, e.planned, e.entropy) == Some(plan)
      modifies this, manager, subscriptions, subscriptions.store, selectors, selectors.socks
      ensures Recorded() && history.Extends(old(history)) && subscriptions.address == old(subscriptions.address)
              && selectors.nextId == old(selectors.nextId)
      ensures Booked() && ledger.Extends(old(ledger)) && ledger.Last().inFlight == old(ledger.Last().inFlight)
      ensures !r.Published? ==>
                manager.View() == old(manager.View()).(subscription := previous)
                    && selectors.registry == previousRegistry
      ensures var stored := Candidate(platform, old(subscriptions.store.state), plan, rebuilt, subscriptions.address,
                                      e.created);
              var storable := e.writable && stored.Some?
                  && ServedValid(platform, stored.value, e.checked, subscriptions.address);
              match r
              case Published(s) =>
                && s == rebuilt && storable && subscriptions.store.state == stored.value
                && manager.View() == Committed(old(manager.View()), rebuilt)
                    && selectors.registry == old(selectors.registry)
                && subscriptions.cache == Prime(platform, stored.value, old(subscriptions.cache))
              case Stopped(hurdle) =>
                hurdle == Storing && !storable && subscriptions.store.state == old(subscriptions.store.state)
                    && subscriptions.cache == old(subscriptions.cache)
              case Aborted(restored) =>
                && storable && CommitProblem(platform, old(manager.View()), rebuilt, e.committed).Some?
                && (restored <==> e.rewritable && StateValid(platform, old(subscriptions.store.state), e.undone))
                && subscriptions.store.state == (if restored then old(subscriptions.store.state) else stored.value)
                && if restored then CacheShows(platform, subscriptions.store.state, subscriptions.cache)
                   else subscriptions.cache == Prime(platform, stored.value, old(subscriptions.cache))
    {
      var aggregate := subscriptions.CommitRuntimeSnapshot(plan, rebuilt, e.created, e.checked, e.writable);
      if aggregate.None? {
        UndoAuthority(plan.generation, previous, previousRegistry);
        return Stopped(Storing);
      }
      BookCommit(plan, rebuilt, e);
      ghost var stored := ledger;
      r := AdoptInMemory(plan, previous, previousRegistry, rebuilt, aggregate.value, e);
      LedgerGrows(old(ledger), stored, ledger);
    }

    // The last step over an aggregate that is durable.
    method AdoptInMemory(plan: CommitPlan, previous: SubscriptionGeneration, previousRegistry: Registry,
                         rebuilt: RuntimeSnapshot,
                         before: PersistentState, e: Circumstances)
      returns (r: PublishResult)
      requires Wired() && IsHistory(platform, history) && history.Last() == At(Swapped(previous, previousRegistry))
      requires selectors.registry == selectors.socks.selectors && manager.subscription == plan.generation
      requires RefersOnlyTo(rebuilt.selectors, plan.generation.number)
      requires IsLedger(platform, ledger) && ledger.Last().publishing.Some?
               && ledger.Last().publishing.value.state == before
      requires Present(ledger.Last().inFlight, ledger.Last().stamp) == ledger.Last().(publishing := None)
      modifies this, manager, subscriptions, subscriptions.store, selectors, selectors.socks
      ensures Recorded() && history.Extends(old(history))
      ensures Booked() && ledger.Extends(old(ledger)) && ledger.Last().inFlight == old(ledger.Last().inFlight)
      ensures subscriptions.address == old(subscriptions.address) && selectors.nextId == old(selectors.nextId)
      ensures !r.Stopped? && (r.Aborted? <==> CommitProblem(platform, old(manager.View()), rebuilt, e.committed).Some?)
      ensures r.Published? ==>
                && r.snapshot == rebuilt && manager.View() == Committed(old(manager.View()), rebuilt)
                && selectors.registry == old(selectors.registry)
                && subscriptions.store.state == old(subscriptions.store.state)
                    && subscriptions.cache == old(subscriptions.cache)
      ensures r.Aborted? ==>
                && manager.View() == old(manager.View()).(subscription := previous)
                    && selectors.registry == previousRegistry
                && (r.restored <==> e.rewritable && StateValid(platform, before, e.undone))
                && subscriptions.store.state == (if r.restored then before else old(subscriptions.store.state))
                && (r.restored ==> CacheShows(platform, before, subscriptions.cache))
                && (!r.restored ==> subscriptions.cache == old(subscriptions.cache))
    {
      var err := manager.Commit(rebuilt, e.committed);
      if err.Some? {
        UndoAuthority(plan.generation, previous, previousRegistry);
        var restored := TakeBack(before, e);
        PrimedShows(platform, before, old(subscriptions.cache));
        return Aborted(restored);
      }
      BookSettle();
      RecordPublish(rebuilt, e.committed, history.Last());
      return Published(rebuilt);
    }

    // The manager has committed since the last entry.
    ghost method RecordPublish(snapshot: RuntimeSnapshot, now: Time, before: Control)
      requires IsHistory(platform, history) && history.Last() == before && before.stage.Swapped?
      requires selectors.registry == selectors.socks.selectors
               && RefersOnlyTo(snapshot.selectors, before.m.subscription.number)
      requires CommitProblem(platform, before.m, snapshot, now).None?
      requires At(Idle) == before.(m := Committed(before.m, snapshot), stage := Idle)
      modifies `history
      ensures Recorded() && history.Extends(old(history))
    {
      Record(Change.Publish(snapshot, now), Idle);
    }

    // The compensating write.
    method TakeBack(before: PersistentState, e: Circumstances) returns (restored: bool)
      requires Wired() && IsLedger(platform, ledger) && ledger.Last().publishing.Some?
      requires var w := ledger.Last();
               w.publishing.value.state == before && Present(w.inFlight, w.stamp) == w.(publishing := None)
      modifies `ledger, subscriptions, subscriptions.store
      ensures Booked() && ledger.Extends(old(ledger)) && ledger.Last().inFlight == old(ledger.Last().inFlight)
      ensures subscriptions.address == old(subscriptions.address)
      ensures restored <==> e.rewritable && StateValid(platform, before, e.undone)
      ensures subscriptions.store.state == if restored then before else old(subscriptions.store.state)
      ensures subscriptions.cache == if restored then Prime(platform, before, old(subscriptions.cache))
              else old(subscriptions.cache)
    {
      restored := subscriptions.RestoreAggregate(before, e.undone, e.rewritable);
      BookRestore(e.undone, e.rewritable, old(subscriptions.cache));
    }

    // Both in-memory rollbacks, registries first.
    method UndoAuthority(candidate: SubscriptionGeneration, previous: SubscriptionGeneration, registry: Registry)
      requires Wired() && IsHistory(platform, history)
      requires manager.subscription == candidate && history.Last() == At(Swapped(previous, registry))
      modifies `history, manager, selectors, selectors.socks
      ensures Recorded() && history.Extends(old(history))
      ensures manager.View() == old(manager.View()).(subscription := previous)
      ensures selectors.registry == registry && selectors.socks.selectors == registry
              && selectors.nextId == old(selectors.nextId)
    {
      selectors.Rollback(registry);
      Record(RestoreRegistry, Installed(previous));
      manager.ReinstallSubscription(candidate, previous);
      Record(RestoreManager, Idle);
    }
  }
}
