/**
 Putting the process together from the durable aggregate
 (cmd/kfadapter/main.go, and NewRuntime in internal/app/runtime.go): the state
 every run of the facade starts from.
 */
module Startup {
  import opened Foundations
  import opened StateTypes
  import opened Platform
  import opened Credentials
  import opened Manager
  import opened Durable
  import opened Subscriptions
  import opened Control
  import opened Publication
  import opened Refreshing
  import opened RuntimeFacade

  function KeyOf(verifier: Option<Key>): Key {
    if verifier.Some? then verifier.value else []
  }

  lemma RestoredIsSound(p: Platform, s: PersistentState, checked: Time, now: Time, id: nat)
    requires StateValid(p, s, checked)
    requires RestoreProblem(p, s.active, s.subscription, KeyOf(s.verifier), now).None?
    requires NewRegistry(id, s.subscription).Some?
    ensures Sound(p, Control(Restored(s.active, s.subscription, KeyOf(s.verifier), now),
                             NewRegistry(id, s.subscription).value, id + 1, Idle))
  {
    assert !WIPED.Valid();
    if SessionUsable(s.active, now) {
      assert ValidActive(p, s, s.active.value, checked);
    }
  }

  lemma RestoredAgrees(p: Platform, s: PersistentState, checked: Time, now: Time, id: nat, cache: Cache)
    requires StateValid(p, s, checked) && NewRegistry(id, s.subscription).Some?
    ensures var registry := NewRegistry(id, s.subscription).value;
            Agree(p, Holders(Restored(s.active, s.subscription, KeyOf(s.verifier), now), registry, registry, s, cache))
  {
    assert !WIPED.Valid();
    if s.active.Some? {
      assert ValidActive(p, s, s.active.value, checked);
      forall name | name in s.active.value.selectors
        ensures name != ""
        ensures (s.active.value.selectors[name].tombstoned ==> s.active.value.selectors[name].until != UNSET)
      {
        assert ValidReference(name, s.active.value.selectors[name], s.active.value.nodes);
      }
    }
  }

  lemma RestoredServes(s: PersistentState, now: Time)
    requires SessionUsable(s.active, now)
    ensures var m := Restored(s.active, s.subscription, KeyOf(s.verifier), now);
            m.phase == ServiceState.Ready && m.snapshot == s.active
  {
  }

  // Moving to another listener address rewrites the body and nothing else.
  lemma ReconciledKeepsAuthority(p: Platform, s: PersistentState, address: string)
    requires Reconciled(p, s, address).Some?
    ensures var moved := Reconciled(p, s, address).value;
            moved.subscription == s.subscription && moved.verifier == s.verifier && moved.active == s.active
  {
  }

  predicate Stale(s: PersistentState, now: Time) {
    s.active.Some? && !SessionUsable(s.active, now)
  }

  function WithoutStale(s: PersistentState, now: Time): PersistentState {
    if Stale(s, now) then s.(active := None) else s
  }

  ghost predicate Droppable(p: Platform, s: PersistentState, now: Time, healthy: bool) {
    Stale(s, now) ==> healthy && StateValid(p, s.(active := None), now)
  }

  // A first start makes an aggregate with fresh keys and nothing else.
  function Initial(keys: (Key, Key), now: Time): PersistentState {
    PersistentState(None, SubscriptionGeneration(1, keys.0, keys.1, [], now), EMPTY_LAST_GOOD, None)
  }

  function Origin(found: Option<PersistentState>, keys: Option<(Key, Key)>, now: Time): Option<PersistentState> {
    if found.Some? then found else if keys.Some? then Some(Initial(keys.value, now)) else None
  }

  // What the world contributes to a start: the aggregate on disk if there is one,
  // fresh keys if there is entropy, the disk, and the clock readings.
  datatype Boot = Boot(found: Option<PersistentState>, keys: Option<(Key, Key)>, created: Time, loaded: Time,
                       managed: Time, moved: Time, served: Time, started: Time, healthy: bool)

  ghost predicate Loads(p: Platform, b: Boot) {
    var stored := Origin(b.found, b.keys, b.created);
    && stored.Some? && AggregateValid(p, stored.value, b.loaded)
    && (b.found.None? ==> b.healthy) && Droppable(p, stored.value, b.loaded, b.healthy)
  }

  function LoadedState(b: Boot): PersistentState
    requires Origin(b.found, b.keys, b.created).Some?
  {
    WithoutStale(Origin(b.found, b.keys, b.created).value, b.loaded)
  }

  // Everything that the parts of the process need of the aggregate and the
  // configured listener.
  ghost predicate Assembles(p: Platform, s: PersistentState, listen: string, b: Boot) {
    && RestoreProblem(p, s.active, s.subscription, KeyOf(s.verifier), b.managed).None?
    && NewRegistry(0, s.subscription).Some? && p.hostPort(listen).Some?
    && Servable(p, s, ChosenAddress(p, s, listen), b.moved, b.served, b.healthy)
  }

  ghost predicate Starts(p: Platform, listen: string, b: Boot) {
    && Loads(p, b)
    && var s := LoadedState(b);
    && Assembles(p, s, listen, b)
    && Droppable(p, Reconciled(p, s, ChosenAddress(p, s, listen)).value, b.started, b.healthy)
  }

  // A first start with keys and a disk always loads.
  lemma FirstStartLoads(p: Platform, b: Boot)
    requires b.found.None? && b.keys.Some? && |b.keys.value.0| == KEY_SIZE && |b.keys.value.1| == KEY_SIZE
    requires b.created != UNSET && b.healthy
    ensures Loads(p, b)
    ensures var s := LoadedState(b);
            && s.verifier.None? && s.active.None? && s.lastGood == EMPTY_LAST_GOOD
            && s.subscription.number == 1 && s.subscription.binding == [] && s.subscription.activatedAt == b.created
            && (s.subscription.selectorKey, s.subscription.proxyKey) == b.keys.value
  {
  }

  // A loaded aggregate has passed the full check; a stored session that has run
  // out is dropped before it reaches the manager.
  method Load(p: Platform, b: Boot) returns (r: Option<Store>)
    ensures r.Some? <==> Loads(p, b)
    ensures r.Some? ==>
              && fresh(r.value) && r.value.platform == p && r.value.state == LoadedState(b)
                  && StateValid(p, r.value.state, b.loaded)
  {
    var stored := b.found;
    if stored.None? {
      if b.keys.None? {
        return None;
      }
      var (selectorKey, proxyKey) := b.keys.value;
      stored := Some(PersistentState(None, SubscriptionGeneration(1, selectorKey, proxyKey, [], b.created),
                                     EMPTY_LAST_GOOD, None));
    }
    var valid := ValidateAggregate(p, stored.value, b.loaded);
    if !valid || (b.found.None? && !b.healthy) {
      return None;
    }
    var store := new Store(p, stored.value);
    if stored.value.active.Some? && !SessionUsable(stored.value.active, b.loaded) {
      var written := store.Write(stored.value.(active := None), b.loaded, b.healthy);
      if !written {
        return None;
      }
    }
    return Some(store);
  }

  predicate Lasts(b: Boot) {
    b.found.Some? && SessionUsable(b.found.value.active, b.loaded) && SessionUsable(b.found.value.active, b.managed)
    && SessionUsable(b.found.value.active, b.started)
  }

  // How a process that has started stands: on the keys of the loaded aggregate
  // and, if its session outlives every reading made on the way, serving.
  predicate StandsAs(b: Boot, m: ManagerState) {
    && Origin(b.found, b.keys, b.created).Some? && m.subscription == LoadedState(b).subscription
    && (Lasts(b) ==> m.phase == ServiceState.Ready && m.snapshot == b.found.value.active)
  }

  lemma RestoredStands(b: Boot, m: ManagerState)
    requires Origin(b.found, b.keys, b.created).Some?
    requires var s := LoadedState(b);
             var restored := Restored(s.active, s.subscription, KeyOf(s.verifier), b.managed);
             m.subscription == restored.subscription && (SessionUsable(s.active, b.started) ==> m == restored)
    ensures StandsAs(b, m)
  {
    if Lasts(b) {
      RestoredServes(LoadedState(b), b.managed);
    }
  }

  method StartUp(p: Platform, listen: string, lifetime: nat, b: Boot) returns (r: Option<Runtime>)
    ensures r.Some? <==> Starts(p, listen, b)
    ensures r.Some? ==>
              && fresh(r.value) && r.value.Valid() && r.value.alive && r.value.publisher.platform == p
              && Loads(p, b) && StandsAs(b, r.value.publisher.manager.View())
              && r.value.publisher.subscriptions.address == ChosenAddress(p, LoadedState(b), listen)
              && r.value.publisher.ledger.Last().inFlight == multiset{}
  {
    var refresher := Build(p, listen, lifetime, b);
    if refresher.None? {
      return None;
    }
    r := Open(refresher.value, b);
    if r.Some? {
      RestoredStands(b, r.value.publisher.manager.View());
    }
  }

  // The parts of the process over the aggregate, before the facade is opened.
  method Build(p: Platform, listen: string, lifetime: nat, b: Boot) returns (r: Option<Refresher>)
    ensures r.Some? <==> Loads(p, b) && Assembles(p, LoadedState(b), listen, b)
    ensures r.Some? ==>
              var (s, publisher) := (LoadedState(b), r.value.publisher);
              && fresh(r.value) && fresh(publisher) && fresh(publisher.manager) && fresh(publisher.subscriptions.store)
              && publisher.platform == p && r.value.Ready() && Agree(p, publisher.Held())
                  && publisher.ledger.Last().inFlight == multiset{}
              && publisher.subscriptions.address == ChosenAddress(p, s, listen)
              && publisher.manager.View() == Restored(s.active, s.subscription, KeyOf(s.verifier), b.managed)
              && Reconciled(p, s, publisher.subscriptions.address) == Some(publisher.subscriptions.store.state)
              && publisher.subscriptions.store.state.active == s.active
  {
    var store := Load(p, b);
    if store.None? {
      return None;
    }
    r := Assemble(store.value, listen, lifetime, b);
  }

  // Manager, registries and subscription service over one loaded aggregate.
  method Assemble(store: Store, listen: string, lifetime: nat, b: Boot) returns (r: Option<Refresher>)
    requires StateValid(store.platform, store.state, b.loaded)
    modifies store
    ensures r.Some? <==> Assembles(store.platform, old(store.state), listen, b)
    ensures r.Some? ==>
              var (p, durable, publisher) := (store.platform, old(store.state), r.value.publisher);
              var address := ChosenAddress(p, durable, listen);
              && fresh(r.value) && fresh(publisher) && fresh(publisher.manager) && fresh(publisher.subscriptions)
              && fresh(publisher.selectors) && fresh(publisher.selectors.socks)
              && publisher.subscriptions.store == store && publisher.platform == p
                  && publisher.subscriptions.address == address
              && r.value.Ready() && Agree(p, publisher.Held()) && publisher.ledger.Last().inFlight == multiset{}
              && publisher.manager.View() == Restored(durable.active, durable.subscription, KeyOf(durable.verifier),
                                                      b.managed)
              && Reconciled(p, durable, address) == Some(store.state) && store.state.active == durable.active
  {
    var p, durable := store.platform, store.state;
    var key: Key := [];
    if durable.verifier.Some? {
      key := durable.verifier.value;
    }
    var manager := NewManager(p, durable.active, durable.subscription, key, b.managed);
    var registry := MakeRegistry(0, durable.subscription);
    if manager.Err? || registry.None? {
      return None;
    }
    var service := NewService(store, listen, b.moved, b.served, b.healthy);
    if service.None? {
      return None;
    }
    ReconciledKeepsAuthority(p, durable, service.value.address);
    RestoredIsSound(p, durable, b.loaded, b.managed, 0);
    RestoredAgrees(p, store.state, b.served, b.managed, 0, service.value.cache);
    var refresher := Wire(p, manager.value, registry.value, service.value, lifetime, b.served);
    return Some(refresher);
  }

  // Coordinator, publisher and refresher around manager, registry and service.
  method Wire(p: Platform, manager: StateManager, registry: Registry, service: Service, lifetime: nat,
              ghost stamp: Time)
    returns (refresher: Refresher)
    requires manager.platform == p && service.platform == p && service.store.platform == p
    requires Sound(p, Control(manager.View(), registry, registry.id + 1, Idle))
    requires ServedValid(p, service.store.state, stamp, service.address)
             && service.cache == Projection(p, service.store.state)
    requires Agree(p, Holders(manager.View(), registry, registry, service.store.state, service.cache))
    ensures fresh(refresher) && refresher.lifetime == lifetime && refresher.publisher.platform == p
    ensures var publisher := refresher.publisher;
            && fresh(publisher) && fresh(publisher.selectors) && fresh(publisher.selectors.socks)
            && publisher.manager == manager && publisher.subscriptions == service
            && publisher.Held() == Holders(manager.View(), registry, registry, service.store.state, service.cache)
            && refresher.Ready() && publisher.ledger.Last().inFlight == multiset{}
  {
    var socks := new SocksServer(registry);
    var coordinator := new SelectorCoordinator(p, socks, registry);
    var publisher := new Publisher(manager, service, coordinator, stamp);
    refresher := new Refresher(publisher, lifetime);
  }

  method Open(refresher: Refresher, b: Boot) returns (r: Option<Runtime>)
    requires refresher.Ready() && Agree(refresher.publisher.platform, refresher.publisher.Held())
    modifies refresher.publisher, refresher.publisher.manager, refresher.publisher.subscriptions.store
    ensures var publisher := refresher.publisher;
            r.Some? <==> Droppable(publisher.platform, old(publisher.subscriptions.store.state), b.started, b.healthy)
    ensures r.Some? ==> fresh(r.value) && r.value.refresher == refresher && r.value.publisher == refresher.publisher
    ensures r.Some? ==> r.value.Valid() && r.value.alive && refresher.Grown()
    ensures refresher.publisher.manager.subscription == old(refresher.publisher.manager.subscription)
    ensures SessionUsable(old(refresher.publisher.subscriptions.store.state.active), b.started) ==>
              refresher.publisher.manager.View() == old(refresher.publisher.manager.View())
  {
    var stale := refresher.publisher.subscriptions.store.state.active;
    if stale.Some? && !SessionUsable(stale, b.started) {
      var retired := Retire(refresher, b);
      if !retired {
        return None;
      }
    }
    var runtime := new Runtime(refresher);
    return Some(runtime);
  }

  // A session that ran out is expired in memory and dropped on disk.
  method Retire(refresher: Refresher, b: Boot) returns (ok: bool)
    requires refresher.Ready() && Agree(refresher.publisher.platform, refresher.publisher.Held())
    requires !SessionUsable(refresher.publisher.subscriptions.store.state.active, b.started)
    modifies refresher.publisher, refresher.publisher.manager, refresher.publisher.subscriptions.store
    ensures var publisher := refresher.publisher;
            && (ok <==>
                  && b.healthy
                  && StateValid(publisher.platform, old(publisher.subscriptions.store.state).(active := None),
                                b.started))
            && (ok ==> refresher.Ready() && Agree(publisher.platform, publisher.Held()) && refresher.Grown())
            && publisher.manager.subscription == old(publisher.manager.subscription)
  {
    var publisher := refresher.publisher;
    var store := publisher.subscriptions.store;
    ExpireInMemory(refresher, b.started);
    ghost var h := publisher.Held();
    ok := store.Write(store.state.(active := None), b.started, b.healthy);
    if ok {
      publisher.BookClear();
      ClearedAgrees(publisher.platform, h, publisher.Held());
    }
  }

  method ExpireInMemory(refresher: Refresher, now: Time)
    requires refresher.Ready() && Agree(refresher.publisher.platform, refresher.publisher.Held())
    modifies refresher.publisher, refresher.publisher.manager
    ensures refresher.Ready() && Agree(refresher.publisher.platform, refresher.publisher.Held()) && refresher.Grown()
    ensures !refresher.publisher.manager.View().HoldsSessions()
    ensures refresher.publisher.manager.subscription == old(refresher.publisher.manager.subscription)
  {
    var publisher := refresher.publisher;
    assert !WIPED.Valid();
    if publisher.manager.phase == ServiceState.Ready || publisher.manager.phase == Degraded {
      var err := publisher.manager.MarkExpired(now);
      publisher.Record(Lapse(now), Idle);
    }
  }
}
