/**
 The single subscription authority: the plan and the durable commit of a
 control publication, the cached serving material, the proof that the exact
 current body was fetched, and the move to another listener address
 (internal/subscription/service.go). Clock readings, fresh keys and the health
 of the disk are arguments.
 */
module Subscriptions {
  import opened Foundations
  import opened StateTypes
  import opened Platform
  import opened Credentials
  import opened Manager
  import opened Rendering
  import opened Durable
  import opened Bodies

  // ---------- binding an account ----------

  // Keeps the credentials of the same account; another account gets fresh keys
  // and loses every stored artefact of the first.
  function EnsureBinding(p: Platform, s: PersistentState, userID: string, now: Time,
                         entropy: Option<(Key, Key)>): Option<PersistentState> {
    if s.verifier.None? || !s.subscription.Valid() then None
    else
      var binding := BindingFor(p, s.verifier.value, userID);
      if binding.None? then None
      else if |s.subscription.binding| == 0 then Some(s.(subscription := s.subscription.(binding := binding.value)))
      else if s.subscription.binding == binding.value then Some(s)
      else if entropy.None? then None
      else Some(s.(subscription := SubscriptionGeneration(s.subscription.number + 1, entropy.value.0, entropy.value.1,
                                                          binding.value, now),
                   lastGood := EMPTY_LAST_GOOD, active := None))
  }

  datatype CommitPlan = CommitPlan(generation: SubscriptionGeneration, userID: string, previous: SubscriptionGeneration)

  function Plan(p: Platform, s: PersistentState, userID: string, now: Time,
                entropy: Option<(Key, Key)>): Option<CommitPlan> {
    if p.trim(userID) == "" then None
    else
      var candidate := EnsureBinding(p, s, userID, now, entropy);
      if candidate.None? then None else Some(CommitPlan(candidate.value.subscription, userID, s.subscription))
  }

  // ---------- rendering runtime nodes ----------

  function NodeLink(p: Platform, g: SubscriptionGeneration, n: Node): Link {
    var pair := DeriveNode(p, g, n.id, n.provider, n.host, n.port);
    if pair.Err? then Link("", "", n.name, n.group, false)
    else Link(pair.value.selector, pair.value.password, n.name, n.group, n.TunnelEligible())
  }

  function NodeLinks(p: Platform, g: SubscriptionGeneration, nodes: seq<Node>): seq<Link> {
    seq(|nodes|, i requires 0 <= i < |nodes| => NodeLink(p, g, nodes[i]))
  }

  function PersistDerived(p: Platform, g: SubscriptionGeneration, n: Node): PersistedNode {
    var pair := DeriveNode(p, g, n.id, n.provider, n.host, n.port);
    if pair.Err? then Persist(n) else Persist(n).(selector := pair.value.selector)
  }

  function PersistAll(p: Platform, g: SubscriptionGeneration, nodes: seq<Node>): seq<PersistedNode> {
    seq(|nodes|, i requires 0 <= i < |nodes| => PersistDerived(p, g, nodes[i]))
  }

  ghost predicate AllDerivable(p: Platform, g: SubscriptionGeneration, nodes: seq<Node>) {
    forall n | n in nodes :: DeriveNode(p, g, n.id, n.provider, n.host, n.port).Ok?
  }

  lemma NodeLinksCoherent(p: Platform, g: SubscriptionGeneration, nodes: seq<Node>)
    ensures Coherent(NodeLinks(p, g, nodes))
  {
    var links := NodeLinks(p, g, nodes);
    forall i | 0 <= i < |links|
      ensures links[i].password == if links[i].selector == "" then "" else PasswordFor(p, g.proxyKey, links[i].selector)
    {
    }
  }

  method RenderNodes(p: Platform, g: SubscriptionGeneration, nodes: seq<Node>, address: string)
    returns (r: Option<(string, seq<PersistedNode>)>)
    ensures r.Some? <==> AllDerivable(p, g, nodes) && Rendered(p, NodeLinks(p, g, nodes), address).Ok?
    ensures r.Some? ==> r.value == (Rendered(p, NodeLinks(p, g, nodes), address).value.0, PersistAll(p, g, nodes))
  {
    var links: seq<Link>, persisted: seq<PersistedNode> := [], [];
    for i := 0 to |nodes|
      invariant links == NodeLinks(p, g, nodes)[..i] && persisted == PersistAll(p, g, nodes)[..i]
      invariant forall j | 0 <= j < i ::
                  DeriveNode(p, g, nodes[j].id, nodes[j].provider, nodes[j].host, nodes[j].port).Ok?
    {
      var n := nodes[i];
      assert n in nodes;
      var pair := DeriveCredentials(p, n.id, n.provider, n.host, n.port, g.selectorKey, g.proxyKey);
      if pair.Err? {
        return None;
      }
      links := links + [Link(pair.value.selector, pair.value.password, n.name, n.group, n.TunnelEligible())];
      persisted := persisted + [PersistedNode(n.id, pair.value.selector, n.provider, n.host, n.port, n.name, n.group,
                                              n.eligible, n.excluded)];
    }
    assert links == NodeLinks(p, g, nodes) && persisted == PersistAll(p, g, nodes);
    NodeLinksCoherent(p, g, nodes);
    var body := Render(p, links, address);
    if body.Err? {
      return None;
    }
    return Some((body.value.0, persisted));
  }

  // ---------- the last-good record ----------

  // An unchanged body of the same generation keeps its creation time and its
  // fetch proof; any other body starts without a proof.
  ghost function NextLastGood(p: Platform, lg: LastGood, g: SubscriptionGeneration, nodes: seq<Node>, address: string,
                              now: Time): Option<LastGood> {
    if |g.binding| != KEY_SIZE || !AllDerivable(p, g, nodes) || Rendered(p, NodeLinks(p, g, nodes), address).Err?
        then None
    else
      var body := Rendered(p, NodeLinks(p, g, nodes), address).value.0;
      var stored := PersistAll(p, g, nodes);
      if lg.generation == g.number && lg.body == body then Some(lg.(nodes := stored))
      else Some(LastGood(g.number, now, stored, body, 0, UNSET, []))
  }

  // ---------- the durable candidate of a publication ----------

  ghost function Candidate(p: Platform, before: PersistentState, plan: CommitPlan, snapshot: RuntimeSnapshot,
                           address: string, now: Time): Option<PersistentState> {
    if !before.subscription.Same(plan.previous) || before.verifier.None? || |before.verifier.value| != KEY_SIZE
       || BindingFor(p, before.verifier.value, plan.userID) != Some(plan.generation.binding)
    then None
    else
      var base := if before.subscription.Same(plan.generation) then before.(subscription := plan.generation)
                  else before.(subscription := plan.generation, lastGood := EMPTY_LAST_GOOD, active := None);
      var lg := NextLastGood(p, base.lastGood, plan.generation, snapshot.nodes, address, now);
      if lg.None? then None else Some(base.(lastGood := lg.value, active := Some(snapshot)))
  }

  // ---------- the cache ----------

  datatype Cache = Cache(binding: Key, body: string, bodyHash: Key, generation: nat, nodeCount: nat,
                         fetchedAt: Time, fetchedGeneration: nat, fetchedHash: Key, fetching: bool)
  {
    predicate Proven() {
      fetchedAt != UNSET && fetchedGeneration == generation && fetchedHash == bodyHash
    }
  }

  const NO_CACHE := Cache([], "", [], 0, 0, UNSET, 0, [], false)

  function RenderableCount(nodes: seq<PersistedNode>): nat {
    if nodes == [] then 0
    else RenderableCount(nodes[..|nodes| - 1]) + if nodes[|nodes| - 1].Renderable() then 1 else 0
  }

  // What the cache has to say about a durable state.
  function Projection(p: Platform, s: PersistentState): Cache {
    if |s.subscription.binding| != KEY_SIZE || s.lastGood.body == "" then NO_CACHE
    else
      var base := Cache(s.subscription.binding, s.lastGood.body, p.bodyHash(s.lastGood.body), s.subscription.number,
                        RenderableCount(s.lastGood.nodes), UNSET, 0, [], false);
      if s.lastGood.fetchedAt != UNSET && |s.lastGood.fetchedHash| == KEY_SIZE
      then base.(fetchedAt := s.lastGood.fetchedAt, fetchedGeneration := s.lastGood.fetchedGeneration,
                 fetchedHash := s.lastGood.fetchedHash)
      else base
  }

  // A claim to be recording a fetch survives only while the served body does.
  function Prime(p: Platform, s: PersistentState, previous: Cache): Cache {
    var next := Projection(p, s);
    next.(fetching := previous.fetching && previous.binding == next.binding && previous.generation == next.generation
          && previous.bodyHash == next.bodyHash)
  }

  // ---------- recording a fetch ----------

  // First critical section: claim the recording, or give up.
  predicate MayClaim(c: Cache, generation: nat, hash: Key) {
    c.body != "" && c.generation == generation && c.bodyHash == hash
    && !(c.fetchedAt != UNSET && c.fetchedGeneration == generation && c.fetchedHash == hash)
    && !c.fetching
  }

  datatype FetchOutcome = Abandoned | AlreadyProven | Refused | Recorded

  function WithProof(s: PersistentState, generation: nat, hash: Key, at: Time): PersistentState {
    s.(lastGood := s.lastGood.(fetchedGeneration := generation, fetchedAt := at, fetchedHash := hash))
  }

  ghost predicate Recordable(p: Platform, s: PersistentState, generation: nat, hash: Key, at: Time, now: Time,
                             address: string) {
    && s.subscription.number == generation && s.lastGood.generation == generation && p.bodyHash(s.lastGood.body) == hash
    && ServedValid(p, WithProof(s, generation, hash, at), now, address)
  }

  // Second critical section, under the mutation lock.
  ghost function FetchOutcomeOf(p: Platform, s: PersistentState, c: Cache, generation: nat, hash: Key, at: Time,
                                now: Time, address: string, healthy: bool): FetchOutcome {
    if c.body == "" || c.generation != generation || c.bodyHash != hash || !c.fetching then Abandoned
    else if c.fetchedAt != UNSET && c.fetchedGeneration == generation && c.fetchedHash == hash then AlreadyProven
    else if healthy && Recordable(p, s, generation, hash, at, now, address) then Recorded
    else Refused
  }

  ghost function AfterFetch(p: Platform, s: PersistentState, c: Cache, generation: nat, hash: Key, at: Time,
                            outcome: FetchOutcome): (PersistentState, Cache) {
    match outcome
    case Abandoned => (s, c)
    case AlreadyProven => (s, c.(fetching := false))
    case Refused => (s, c.(fetching := false))
    case Recorded => (WithProof(s, generation, hash, at), Prime(p, WithProof(s, generation, hash, at), c))
  }

  // ---------- another listener address ----------

  predicate LineFor(p: Platform, line: string, address: string) {
    var link := p.parseLink(line);
    link.Some? && link.value.scheme == "socks5" && link.value.host == address
    && link.value.host != "" && link.value.hasUser && link.value.query == ""
  }

  // The one address that all lines of a body agree on.
  function CommonAddress(p: Platform, body: string): Option<string> {
    var text := p.decode(body);
    if text.None? || text.value == "" then None
    else
      var lines := Split(if text.value[|text.value| - 1] == '\n' then text.value[..|text.value| - 1]
                         else text.value, '\n');
      var first := p.parseLink(lines[0]);
      if lines[0] == "" || first.None? || p.hostPort(first.value.host).None? then None
      else if forall line | line in lines :: LineFor(p, line, first.value.host) then Some(first.value.host) else None
  }

  ghost predicate MatchesAtOwnAddress(p: Platform, s: PersistentState) {
    var address := CommonAddress(p, s.lastGood.body);
    address.Some? && (RendersAs(p, PersistedLinks(p, s.subscription, s.lastGood.nodes, false), address.value,
                                s.lastGood.body)
                      || RendersAs(p, PersistedLinks(p, s.subscription, s.lastGood.nodes, true), address.value,
                                   s.lastGood.body))
  }

  // The state to store when serving moves to an address; None for a body that
  // cannot be explained by its nodes.
  ghost function Reconciled(p: Platform, s: PersistentState, address: string): Option<PersistentState> {
    var links := PersistedLinks(p, s.subscription, s.lastGood.nodes, false);
    if s.lastGood.body == "" then if s.lastGood == EMPTY_LAST_GOOD then Some(s) else None
    else if |s.subscription.binding| != KEY_SIZE || s.lastGood.generation != s.subscription.number
            || (exists n :: n in s.lastGood.nodes && !Derivable(p, s.subscription, n))
            || Rendered(p, links, address).Err?
    then None
    else if RendersAs(p, links, address, s.lastGood.body) then Some(s)
    else if !MatchesAtOwnAddress(p, s) then None
    else Some(s.(lastGood := s.lastGood.(body := Rendered(p, links, address).value.0, fetchedAt := UNSET,
                                         fetchedGeneration := 0, fetchedHash := [])))
  }

  // A wildcard listener keeps the concrete address that the stored body shows.
  function ChosenAddress(p: Platform, s: PersistentState, listen: string): string {
    var shown := CommonAddress(p, s.lastGood.body);
    if shown.Some? && p.standsFor(shown.value, listen) then shown.value else listen
  }

  // The record for an address is the stored one, or can be written in its place.
  ghost predicate Movable(p: Platform, s: PersistentState, address: string, written: Time, healthy: bool) {
    var moved := Reconciled(p, s, address);
    moved.Some? && (moved.value == s || (healthy && StateValid(p, moved.value, written)))
  }

  // The stored body can be served at an address, moved there if need be. The
  // clock is read once for the write and again for the final check.
  ghost predicate Servable(p: Platform, s: PersistentState, address: string, written: Time, checked: Time,
                           healthy: bool) {
    Movable(p, s, address, written, healthy) && ServedValid(p, Reconciled(p, s, address).value, checked, address)
  }

  // A move to another address gets as far as its final check and fails there.
  ghost predicate FailsLast(p: Platform, s: PersistentState, target: string, written: Time, checked: Time,
                            healthy: bool) {
    && p.hostPort(target).Some? && Movable(p, s, target, written, healthy)
    && !ServedValid(p, Reconciled(p, s, target).value, checked, target)
  }

  // ---------- the program ----------

  method SameGeneration(a: SubscriptionGeneration, b: SubscriptionGeneration) returns (same: bool)
    ensures same <==> a.Same(b)
  {
    if a.number != b.number {
      return false;
    }
    return a.selectorKey == b.selectorKey && a.proxyKey == b.proxyKey && a.binding == b.binding;
  }

  method CountEligible(nodes: seq<PersistedNode>) returns (count: nat)
    ensures count == RenderableCount(nodes)
  {
    count := 0;
    for i := 0 to |nodes|
      invariant count == RenderableCount(nodes[..i])
    {
      assert nodes[..i + 1][..i] == nodes[..i];
      var n := nodes[i];
      if n.eligible && IsWifiin(n.provider) && n.host != "" && n.port != 0 {
        count := count + 1;
      }
    }
    assert nodes[..|nodes|] == nodes;
  }

  // The first line gives the address, and the others have to agree with it.
  method RenderedAddress(p: Platform, body: string) returns (address: Option<string>)
    ensures address == CommonAddress(p, body)
  {
    var decoded := p.decode(body);
    if decoded.None? || |decoded.value| == 0 {
      return None;
    }
    var text := decoded.value;
    if text[|text| - 1] == '\n' {
      text := text[..|text| - 1];
    }
    var lines := Split(text, '\n');
    if lines[0] == "" {
      return None;
    }
    var first := p.parseLink(lines[0]);
    if first.None? || p.hostPort(first.value.host).None? {
      return None;
    }
    for i := 0 to |lines|
      invariant forall j | 0 <= j < i :: LineFor(p, lines[j], first.value.host)
    {
      assert lines[i] in lines;
      var link := p.parseLink(lines[i]);
      if link.None? || link.value.scheme != "socks5" || link.value.host == "" || !link.value.hasUser
          || link.value.query != "" {
        return None;
      }
      if link.value.host != first.value.host {
        return None;
      }
    }
    return Some(first.value.host);
  }

  // One value, replaced as a whole or not at all.
  class Store {
    const platform: Platform
    var state: PersistentState

    constructor (platform: Platform, state: PersistentState)
      ensures this.platform == platform && this.state == state
    {
      this.platform := platform;
      this.state := state;
    }

    method Write(candidate: PersistentState, now: Time, healthy: bool) returns (ok: bool)
      modifies this
      ensures ok <==> healthy && StateValid(platform, candidate, now)
      ensures state == if ok then candidate else old(state)
    {
      ok := ValidateState(platform, candidate, now);
      ok := ok && healthy;
      if ok {
        state := candidate;
      }
    }
  }

  class Service {
    const platform: Platform
    const store: Store
    var address: string
    var cache: Cache

    constructor (store: Store, address: string)
      ensures this.store == store && this.platform == store.platform && this.address == address
      ensures cache == NO_CACHE
    {
      this.store := store;
      this.platform := store.platform;
      this.address := address;
      this.cache := NO_CACHE;
    }

    method PrepareRuntimeCommit(userID: string, now: Time, entropy: Option<(Key, Key)>, readable: bool)
      returns (plan: Option<CommitPlan>)
      ensures plan == if readable then Plan(platform, store.state, userID, now, entropy) else None
      // The account is bound; a bound account keeps its keys, another one gets
      // fresh keys under the next number.
      ensures plan.Some? ==>
                var (before, after) := (store.state.subscription, plan.value.generation);
                && store.state.verifier.Some?
                    && BindingFor(platform, store.state.verifier.value, userID) == Some(after.binding)
                && plan.value.previous == before
                && if |before.binding| == 0 || before.binding == after.binding
                    then after == before.(binding := after.binding)
                   else
                     && after.number == before.number + 1 && after.activatedAt == now
                     && entropy == Some((after.selectorKey, after.proxyKey))
    {
      if !readable || platform.trim(userID) == "" {
        return None;
      }
      var s := store.state;
      var valid := ValidateGeneration(s.subscription);
      if s.verifier.None? || !valid {
        return None;
      }
      var binding := AccountBinding(platform, s.verifier.value, userID);
      if binding.None? {
        return None;
      }
      var previous, next := s.subscription, s.subscription;
      if |previous.binding| == 0 || previous.binding == binding.value {
        next := previous.(binding := binding.value);
      } else {
        if entropy.None? {
          return None;
        }
        var (selectorKey, proxyKey) := entropy.value;
        next := SubscriptionGeneration(previous.number + 1, selectorKey, proxyKey, binding.value, now);
      }
      return Some(CommitPlan(next, userID, previous));
    }

    // One atomic aggregate: the planned binding, the rendered body and the session.
    method CommitRuntimeSnapshot(plan: CommitPlan, snapshot: RuntimeSnapshot, now: Time, checked: Time, healthy: bool)
      returns (before: Option<PersistentState>)
      requires platform == store.platform
      modifies this, store
      ensures address == old(address)
      ensures before.Some? <==>
                && healthy && snapshot.sessions.Valid() && snapshot.sessions.UserID() == plan.userID
                && Candidate(platform, old(store.state), plan, snapshot, address, now).Some?
                && ServedValid(platform, Candidate(platform, old(store.state), plan, snapshot, address, now).value,
                               checked, address)
      ensures before.Some? ==>
                && before.value == old(store.state)
                && store.state == Candidate(platform, before.value, plan, snapshot, address, now).value
                && cache == Prime(platform, store.state, old(cache))
      ensures before.None? ==> store.state == old(store.state) && cache == old(cache)
    {
      if !snapshot.sessions.Valid() || snapshot.sessions.UserID() != plan.userID {
        return None;
      }
      var current := store.state;
      var candidate := NextAggregate(current, plan, snapshot, now);
      if candidate.None? {
        return None;
      }
      var served := ValidateServed(platform, candidate.value, checked, address);
      if !served {
        return None;
      }
      var written := store.Write(candidate.value, checked, healthy);
      if !written {
        return None;
      }
      PrimeCache(store.state);
      return Some(current);
    }

    // What is served from now on. A claim to be recording a fetch stays with its body.
    method PrimeCache(s: PersistentState)
      modifies `cache
      ensures cache == Prime(platform, s, old(cache))
    {
      var next := NO_CACHE;
      if |s.subscription.binding| == KEY_SIZE && s.lastGood.body != "" {
        var count := CountEligible(s.lastGood.nodes);
        next := Cache(s.subscription.binding, s.lastGood.body, platform.bodyHash(s.lastGood.body),
                      s.subscription.number,
                      count, UNSET, 0, [], false);
        if s.lastGood.fetchedAt != UNSET && |s.lastGood.fetchedHash| == KEY_SIZE {
          next := next.(fetchedAt := s.lastGood.fetchedAt, fetchedGeneration := s.lastGood.fetchedGeneration,
                        fetchedHash := s.lastGood.fetchedHash);
        }
      }
      if cache.fetching && cache.binding == next.binding && cache.generation == next.generation
         && cache.bodyHash == next.bodyHash {
        next := next.(fetching := true);
      }
      cache := next;
    }

    method NextAggregate(current: PersistentState, plan: CommitPlan, snapshot: RuntimeSnapshot, now: Time)
      returns (r: Option<PersistentState>)
      ensures r == Candidate(platform, current, plan, snapshot, address, now)
    {
      var same := SameGeneration(current.subscription, plan.previous);
      if !same || current.verifier.None? || |current.verifier.value| != KEY_SIZE {
        return None;
      }
      var binding := AccountBinding(platform, current.verifier.value, plan.userID);
      if binding != Some(plan.generation.binding) {
        return None;
      }
      var candidate := current.(subscription := plan.generation);
      var kept := SameGeneration(current.subscription, plan.generation);
      if !kept {
        candidate := candidate.(lastGood := EMPTY_LAST_GOOD, active := None);
      }
      var lg := UpdateLastGood(candidate.lastGood, plan.generation, snapshot.nodes, now);
      if lg.None? {
        return None;
      }
      return Some(candidate.(lastGood := lg.value, active := Some(snapshot)));
    }

    method UpdateLastGood(lg: LastGood, g: SubscriptionGeneration, nodes: seq<Node>, now: Time)
      returns (r: Option<LastGood>)
      ensures r == NextLastGood(platform, lg, g, nodes, address, now)
    {
      if |g.binding| != KEY_SIZE {
        return None;
      }
      var rendered := RenderNodes(platform, g, nodes, address);
      if rendered.None? {
        return None;
      }
      var (body, stored) := rendered.value;
      var bodyChanged := lg.generation != g.number || lg.body != body;
      var next := lg.(generation := g.number, nodes := stored, body := body);
      if bodyChanged {
        next := next.(createdAt := now, fetchedAt := UNSET, fetchedGeneration := 0, fetchedHash := []);
      }
      return Some(next);
    }

    // The compensating action: write the prior aggregate back and serve it.
    method RestoreAggregate(before: PersistentState, now: Time, healthy: bool) returns (ok: bool)
      requires platform == store.platform
      modifies this, store
      ensures address == old(address)
      ensures ok <==> healthy && StateValid(platform, before, now)
      ensures store.state == if ok then before else old(store.state)
      ensures cache == if ok then Prime(platform, before, old(cache)) else old(cache)
    {
      ok := store.Write(before, now, healthy);
      if ok {
        PrimeCache(before);
      }
    }

    method ClaimFetch(generation: nat, hash: Key) returns (claimed: bool)
      modifies this
      ensures claimed == MayClaim(old(cache), generation, hash)
      ensures cache == old(cache).(fetching := if claimed then true else old(cache).fetching) && address == old(address)
    {
      if cache.body == "" || cache.generation != generation || cache.bodyHash != hash
         || (cache.fetchedAt != UNSET && cache.fetchedGeneration == generation && cache.fetchedHash == hash)
             || cache.fetching {
        return false;
      }
      cache := cache.(fetching := true);
      return true;
    }

    method RecordFetch(generation: nat, hash: Key, at: Time, now: Time, healthy: bool)
      returns (ghost outcome: FetchOutcome)
      requires platform == store.platform
      modifies this, store
      ensures address == old(address)
      ensures outcome == FetchOutcomeOf(platform, old(store.state), old(cache), generation, hash, at, now, address,
                                        healthy)
      ensures (store.state, cache) == AfterFetch(platform, old(store.state), old(cache), generation, hash, at, outcome)
    {
      if cache.body == "" || cache.generation != generation || cache.bodyHash != hash || !cache.fetching {
        return Abandoned;
      }
      if cache.fetchedAt != UNSET && cache.fetchedGeneration == generation && cache.fetchedHash == hash {
        cache := cache.(fetching := false);
        return AlreadyProven;
      }
      var s := store.state;
      var ok := s.subscription.number == generation && s.lastGood.generation == generation
          && platform.bodyHash(s.lastGood.body) == hash;
      var candidate := s.(lastGood := s.lastGood.(fetchedGeneration := generation, fetchedAt := at,
                                                  fetchedHash := hash));
      if ok {
        ok := ValidateServed(platform, candidate, now, address);
      }
      if ok {
        ok := store.Write(candidate, now, healthy);
      }
      if !ok {
        cache := cache.(fetching := false);
        return Refused;
      }
      PrimeCache(store.state);
      return Recorded;
    }

    method Reconcile(target: string) returns (r: Option<PersistentState>)
      requires platform == store.platform
      ensures r == Reconciled(platform, store.state, target)
    {
      var s := store.state;
      if s.lastGood.body == "" {
        return if s.lastGood == EMPTY_LAST_GOOD then Some(s) else None;
      }
      if |s.subscription.binding| != KEY_SIZE || s.lastGood.generation != s.subscription.number {
        return None;
      }
      var links := LinksOf(platform, s.subscription, s.lastGood.nodes, false);
      if links.None? {
        assert exists n :: n in s.lastGood.nodes && !Derivable(platform, s.subscription, n);
        return None;
      }
      PersistedLinksCoherent(platform, s.subscription, s.lastGood.nodes, false);
      var rendered := Render(platform, links.value, target);
      if rendered.Err? {
        return None;
      }
      if rendered.value.0 == s.lastGood.body {
        return Some(s);
      }
      var own := RenderedAddress(platform, s.lastGood.body);
      if own.None? {
        return None;
      }
      var current := RenderPersisted(platform, s.subscription, s.lastGood.nodes, own.value, false);
      if current != Some(s.lastGood.body) {
        var legacy := RenderPersisted(platform, s.subscription, s.lastGood.nodes, own.value, true);
        if legacy != Some(s.lastGood.body) {
          return None;
        }
      }
      return Some(s.(lastGood := s.lastGood.(body := rendered.value.0, fetchedAt := UNSET, fetchedGeneration := 0,
                                             fetchedHash := [])));
    }

    // At startup: move the stored body to the address and serve it.
    method ReconcileAndPrime(written: Time, checked: Time, healthy: bool) returns (ok: bool)
      requires platform == store.platform
      modifies this, store
      ensures address == ChosenAddress(platform, old(store.state), old(address))
      ensures ok <==> Servable(platform, old(store.state), address, written, checked, healthy)
      ensures ok ==>
                && Reconciled(platform, old(store.state), address) == Some(store.state)
                && cache == Prime(platform, store.state, old(cache))
      ensures !ok ==> cache == old(cache)
    {
      var shown := RenderedAddress(platform, store.state.lastGood.body);
      if shown.Some? && platform.standsFor(shown.value, address) {
        address := shown.value;
      }
      var updated := Reconcile(address);
      if updated.None? {
        return false;
      }
      if updated.value != store.state {
        var stored := store.Write(updated.value, written, healthy);
        if !stored {
          return false;
        }
      }
      ok := ValidateServed(platform, store.state, checked, address);
      if ok {
        PrimeCache(store.state);
      }
    }

    method SetSocksAddress(target: string, written: Time, checked: Time, readable: bool, healthy: bool)
      returns (ok: bool)
      requires platform == store.platform
      modifies this, store
      ensures ok <==>
                && platform.hostPort(target).Some?
                && (target == old(address)
                    || (readable && Servable(platform, old(store.state), target, written, checked, healthy)))
      // A failure leaves everything, but for a final check that fails: then the
      // new address and the moved record stay, and the cache does not follow.
      ensures !ok ==>
                && cache == old(cache)
                && if readable && FailsLast(platform, old(store.state), target, written, checked, healthy)
                   then address == target && Some(store.state) == Reconciled(platform, old(store.state), target)
                   else address == old(address) && store.state == old(store.state)
      ensures ok && target == old(address) ==>
                store.state == old(store.state) && cache == old(cache) && address == target
      ensures ok && target != old(address) ==>
                && address == target
                && Reconciled(platform, old(store.state), target) == Some(store.state)
                && ServedValid(platform, store.state, checked, address)
                && cache == Prime(platform, store.state, old(cache))
    {
      if platform.hostPort(target).None? {
        return false;
      }
      if address == target {
        return true;
      }
      var previous := address;
      address := target;
      if !readable {
        address := previous;
        return false;
      }
      var updated := Reconcile(target);
      if updated.None? {
        address := previous;
        return false;
      }
      if updated.value != store.state {
        var stored := store.Write(updated.value, written, healthy);
        if !stored {
          address := previous;
          return false;
        }
      }
      var served := ValidateServed(platform, store.state, checked, address);
      if !served {
        return false;
      }
      PrimeCache(store.state);
      return true;
    }
  }

  // A service over a store, serving the stored body at the listener's address.
  method NewService(store: Store, listen: string, written: Time, checked: Time, healthy: bool)
    returns (r: Option<Service>)
    modifies store
    ensures var address := ChosenAddress(store.platform, old(store.state), listen);
            && (r.Some? <==>
                  store.platform.hostPort(listen).Some?
                      && Servable(store.platform, old(store.state), address, written, checked, healthy))
            && (r.Some? ==>
                  && fresh(r.value) && r.value.store == store && r.value.platform == store.platform
                      && r.value.address == address
                  && Reconciled(store.platform, old(store.state), address) == Some(store.state)
                  && ServedValid(store.platform, store.state, checked, address)
                      && r.value.cache == Projection(store.platform, store.state))
  {
    if store.platform.hostPort(listen).None? {
      return None;
    }
    var service := new Service(store, listen);
    var primed := service.ReconcileAndPrime(written, checked, healthy);
    return if primed then Some(service) else None;
  }
}
