/**
 Builder meets checker: a snapshot built under a planned generation is accepted
 by both durable checks exactly when its sessions, lifetime and rendering are in
 order. Nothing the builder itself produces is ever refused.
 */
module Acceptance {
  import opened Foundations
  import opened StateTypes
  import opened Platform
  import opened Credentials
  import opened SelectorRuns
  import opened Manager
  import opened Rendering
  import opened Durable
  import opened Bodies
  import opened Subscriptions

  // ---------- stored forms of built nodes ----------

  ghost predicate Keyed(reg: Registry, g: SubscriptionGeneration) {
    reg.selectorKey == g.selectorKey && reg.proxyKey == g.proxyKey
  }

  lemma SettledPersist(p: Platform, reg: Registry, g: SubscriptionGeneration, n: Node)
    requires Keyed(reg, g) && Settled(p, reg, n)
    ensures DeriveNode(p, g, n.id, n.provider, n.host, n.port).Ok?
    ensures PersistDerived(p, g, n) == Persist(n)
    ensures Persist(n).Valid() && Derivable(p, g, Persist(n)) && Derived(p, g, Persist(n))
  {
  }

  // A node that is eligible for tunnels as stored but not as served.
  predicate Masked(n: Node) {
    n.eligible && IsWifiin(n.provider) && !n.EffectiveProfile().Known()
  }

  lemma LinkOfPersisted(p: Platform, reg: Registry, g: SubscriptionGeneration, n: Node)
    requires Keyed(reg, g) && Settled(p, reg, n)
    ensures var stored := PersistedLink(p, g, Persist(n), false);
            var served := NodeLink(p, g, n);
            if Masked(n) then stored.eligible && !served.eligible else stored == served
  {
    SettledPersist(p, reg, g, n);
  }

  ghost predicate AllSettled(p: Platform, reg: Registry, nodes: seq<Node>) {
    forall n | n in nodes :: Settled(p, reg, n)
  }

  lemma LinksAgree(p: Platform, reg: Registry, g: SubscriptionGeneration, nodes: seq<Node>)
    requires Keyed(reg, g) && AllSettled(p, reg, nodes)
    requires forall n | n in nodes :: !Masked(n)
    ensures PersistedLinks(p, g, PersistAll(p, g, nodes), false) == NodeLinks(p, g, nodes)
  {
    forall i | 0 <= i < |nodes|
      ensures PersistedLink(p, g, PersistDerived(p, g, nodes[i]), false) == NodeLink(p, g, nodes[i])
    {
      assert nodes[i] in nodes;
      SettledPersist(p, reg, g, nodes[i]);
      LinkOfPersisted(p, reg, g, nodes[i]);
    }
  }

  lemma {:induction false} MaskedCount(p: Platform, reg: Registry, g: SubscriptionGeneration, nodes: seq<Node>)
    requires Keyed(reg, g) && AllSettled(p, reg, nodes)
    ensures |Eligible(NodeLinks(p, g, nodes))| <= |Eligible(PersistedLinks(p, g, PersistAll(p, g, nodes), false))|
    ensures (exists n :: n in nodes && Masked(n)) ==>
              |Eligible(NodeLinks(p, g, nodes))| < |Eligible(PersistedLinks(p, g, PersistAll(p, g, nodes), false))|
  {
    if nodes != [] {
      var front, last := nodes[..|nodes| - 1], nodes[|nodes| - 1];
      assert nodes == front + [last];
      MaskedCount(p, reg, g, front);
      assert NodeLinks(p, g, nodes)[..|nodes| - 1] == NodeLinks(p, g, front);
      assert PersistedLinks(p, g, PersistAll(p, g, nodes), false)[..|nodes| - 1] == PersistedLinks(p, g,
              PersistAll(p, g, front), false);
      SettledPersist(p, reg, g, last);
      LinkOfPersisted(p, reg, g, last);
    }
  }

  lemma NodeLinksUsable(p: Platform, reg: Registry, g: SubscriptionGeneration, nodes: seq<Node>)
    requires Lawful(p) && Keyed(reg, g) && AllSettled(p, reg, nodes)
    ensures forall l | l in Eligible(NodeLinks(p, g, nodes)) :: l.Usable()
  {
    var links := NodeLinks(p, g, nodes);
    EligibleExactly(links);
    forall l | l in Eligible(links)
      ensures l.Usable()
    {
      var i :| 0 <= i < |links| && links[i] == l;
      assert nodes[i] in nodes;
      SettledPersist(p, reg, g, nodes[i]);
      LinkOfPersisted(p, reg, g, nodes[i]);
      DerivedLinkUsable(p, g, Persist(nodes[i]), false);
    }
  }

  // Equal bodies have as many lines.
  lemma BodyDeterminesCount(p: Platform, a: seq<Link>, b: seq<Link>, address: string)
    requires Lawful(p)
    requires forall l | l in Eligible(a) :: l.Usable()
    requires forall l | l in Eligible(b) :: l.Usable()
    requires Rendered(p, a, address).Ok? && Rendered(p, b, address).Ok?
    requires Rendered(p, a, address).value.0 == Rendered(p, b, address).value.0
    ensures |Eligible(a)| == |Eligible(b)|
  {
    var h := p.hostPort(address).value;
    assert p.hostPort(address).Some?;
    SortKeepsElements(Eligible(a));
    SortKeepsElements(Eligible(b));
    PrintedBody(p, SortLinks(Eligible(a)), h);
    PrintedBody(p, SortLinks(Eligible(b)), h);
    assert |Lines(p, SortLinks(Eligible(a)), h)| == |Eligible(a)|;
    assert |Lines(p, SortLinks(Eligible(b)), h)| == |Eligible(b)|;
  }

  // ---------- the record ----------

  lemma StoredNodesValid(p: Platform, reg: Registry, g: SubscriptionGeneration, nodes: seq<Node>)
    requires Keyed(reg, g) && AllSettled(p, reg, nodes) && DistinctIds(nodes)
    requires 0 < |nodes| <= MAX_NODES
    ensures ValidPersistedNodes(PersistAll(p, g, nodes))
    ensures forall n | n in PersistAll(p, g, nodes) :: n.Valid() && Derivable(p, g, n) && Derived(p, g, n)
    ensures AllDerivable(p, g, nodes)
    ensures forall n | n in nodes :: Persist(n) in PersistAll(p, g, nodes)
  {
    var stored := PersistAll(p, g, nodes);
    forall i | 0 <= i < |nodes|
      ensures stored[i] == Persist(nodes[i]) && stored[i].Valid() && Derivable(p, g, stored[i])
              && Derived(p, g, stored[i])
      ensures DeriveNode(p, g, nodes[i].id, nodes[i].provider, nodes[i].host, nodes[i].port).Ok?
    {
      assert nodes[i] in nodes;
      SettledPersist(p, reg, g, nodes[i]);
    }
    forall n | n in nodes
      ensures Persist(n) in stored
    {
      var i :| 0 <= i < |nodes| && nodes[i] == n;
      assert stored[i] == Persist(n);
    }
  }

  ghost predicate Renders(p: Platform, g: SubscriptionGeneration, nodes: seq<Node>, address: string) {
    Rendered(p, NodeLinks(p, g, nodes), address).Ok?
  }

  lemma RendersSomething(p: Platform, g: SubscriptionGeneration, nodes: seq<Node>, address: string)
    requires Renders(p, g, nodes, address)
    ensures nodes != [] && HasEligible(nodes)
  {
    var links := NodeLinks(p, g, nodes);
    EligibleExactly(links);
    var l := Eligible(links)[0];
    assert l in Eligible(links);
    var i :| 0 <= i < |links| && links[i] == l;
    assert nodes[i] in nodes;
  }

  // The body of the eligible nodes, printed for an address, is within the limit.
  ghost predicate Fits(p: Platform, g: SubscriptionGeneration, nodes: seq<Node>, address: string) {
    && p.hostPort(address).Some?
    && |p.encode(Text(p, SortLinks(Eligible(NodeLinks(p, g, nodes))), p.hostPort(address).value))| <= MAX_RENDERED
  }

  // Built nodes render exactly if one is eligible and the body fits.
  lemma RendersExactly(p: Platform, reg: Registry, g: SubscriptionGeneration, nodes: seq<Node>, address: string)
    requires Lawful(p) && Keyed(reg, g) && AllSettled(p, reg, nodes)
    ensures Renders(p, g, nodes, address) <==> HasEligible(nodes) && Fits(p, g, nodes, address)
  {
    var links := NodeLinks(p, g, nodes);
    NodeLinksUsable(p, reg, g, nodes);
    EligibleExactly(links);
    if Renders(p, g, nodes, address) {
      RendersSomething(p, g, nodes, address);
    } else if HasEligible(nodes) {
      var n :| n in nodes && n.TunnelEligible();
      var i :| 0 <= i < |nodes| && nodes[i] == n;
      SettledPersist(p, reg, g, n);
      assert links[i].eligible && links[i] in Eligible(links);
    }
  }

  // The last-good record of built nodes passes both checks, whether the body is
  // new or an old one is kept with its creation time and fetch proof.
  lemma LastGoodAccepted(p: Platform, reg: Registry, lg: LastGood, nodes: seq<Node>, address: string, now: Time,
                         state: PersistentState)
    requires Lawful(p) && Keyed(reg, state.subscription) && state.subscription.Valid()
             && |state.subscription.binding| == KEY_SIZE
    requires AllSettled(p, reg, nodes) && DistinctIds(nodes) && |nodes| <= MAX_NODES
    requires forall n | n in nodes :: !Masked(n)
    requires Renders(p, state.subscription, nodes, address) && now != UNSET
    requires ValidLastGood(p, lg, state.subscription.number)
    requires NextLastGood(p, lg, state.subscription, nodes, address, now) == Some(state.lastGood)
    ensures ValidLastGood(p, state.lastGood, state.subscription.number)
    ensures BodyMatchesNodes(p, state)
            && RendersAs(p, PersistedLinks(p, state.subscription, state.lastGood.nodes, false), address,
                         state.lastGood.body)
  {
    var g := state.subscription;
    RendersSomething(p, g, nodes, address);
    StoredNodesValid(p, reg, g, nodes);
    LinksAgree(p, reg, g, nodes);
    RenderedBodyAccepted(p, g, PersistAll(p, g, nodes), address);
  }

  lemma RecordExists(p: Platform, reg: Registry, g: SubscriptionGeneration, lg: LastGood, nodes: seq<Node>,
                     address: string, now: Time)
    requires Lawful(p) && Keyed(reg, g) && |g.binding| == KEY_SIZE
    requires AllSettled(p, reg, nodes) && DistinctIds(nodes) && |nodes| <= MAX_NODES
    requires Renders(p, g, nodes, address)
    ensures var next := NextLastGood(p, lg, g, nodes, address, now);
            next.Some? && next.value.nodes == PersistAll(p, g, nodes) && next.value.generation == g.number
            && next.value.body != ""
  {
    RendersSomething(p, g, nodes, address);
    StoredNodesValid(p, reg, g, nodes);
    var eligible := Eligible(NodeLinks(p, g, nodes));
    NodeLinksUsable(p, reg, g, nodes);
    SortKeepsElements(eligible);
    assert p.hostPort(address).Some?;
    PrintedBody(p, SortLinks(eligible), p.hostPort(address).value);
  }

  lemma RecordRenders(p: Platform, lg: LastGood, g: SubscriptionGeneration, nodes: seq<Node>, address: string,
                      now: Time)
    requires NextLastGood(p, lg, g, nodes, address, now).Some?
    ensures var next := NextLastGood(p, lg, g, nodes, address, now).value;
            Renders(p, g, nodes, address) && RendersAs(p, NodeLinks(p, g, nodes), address, next.body)
  {
  }

  // ---------- the active session ----------

  lemma {:induction false} CountsWithin(p: Platform, reg: Registry, want: nat, nodes: seq<Node>, previous: Selectors,
                                        t: Time, r: BuildResult)
    requires LawfulHosts(p) && IsBuild(p, reg, want, nodes, previous, t, r)
    ensures |r.nodes| <= MAX_NODES && |r.selectors| <= MAX_SELECTOR_REFS
    ensures AllSettled(p, reg, r.nodes) && DistinctIds(r.nodes) && DistinctSelectors(r.nodes)
  {
    BuildFacts(p, reg, want, nodes, previous, t, r);
    ViewSettled(p, reg, reg, want, nodes, previous, t, r);
    ViewSize(Entombed(Selected(p, reg, nodes), previous, want, t), r, want);
  }

  // Previous references that carry no endless or zero-time tombstones.
  ghost predicate DatedTombstones(previous: Selectors) {
    forall name | name in previous && previous[name].tombstoned :: previous[name].until != UNSET
  }

  lemma DeadNamesDated(selected: seq<Node>, previous: Selectors, want: nat, t: Time)
    requires DatedTombstones(previous) && "" !in previous
    ensures var dead := Entombed(selected, previous, want, t); forall d | d in dead :: d != "" && dead[d] != UNSET
  {
  }

  lemma ViewReferencesValid(p: Platform, reg: Registry, want: nat, nodes: seq<Node>, previous: Selectors, t: Time,
                            r: BuildResult)
    requires IsBuild(p, reg, want, nodes, previous, t, r)
    requires want != 0 && DatedTombstones(previous) && "" !in previous
    requires AllSettled(p, reg, r.nodes)
    ensures forall name | name in r.selectors ::
              ValidReference(name, r.selectors[name], r.nodes) && r.selectors[name].generation == want
  {
    var dead := Entombed(Selected(p, reg, nodes), previous, want, t);
    DeadNamesDated(Selected(p, reg, nodes), previous, want, t);
    forall name | name in r.selectors
      ensures ValidReference(name, r.selectors[name], r.nodes) && r.selectors[name].generation == want
    {
      ViewReferenceValid(p, reg, want, dead, r, name);
    }
  }

  lemma ViewReferenceValid(p: Platform, reg: Registry, want: nat, dead: map<string, Time>, r: BuildResult, name: string)
    requires IsView(r, dead, want) && want != 0 && name in r.selectors && AllSettled(p, reg, r.nodes)
    requires forall d | d in dead :: d != "" && dead[d] != UNSET
    ensures ValidReference(name, r.selectors[name], r.nodes) && r.selectors[name].generation == want
  {
    if r.selectors[name].tombstoned {
      assert name in Tombstones(r.selectors);
    } else {
      var n :| n in r.nodes && n.selector == name;
      assert r.selectors[n.selector] == LiveRef(n, want);
      assert Settled(p, reg, n);
    }
  }

  // The conditions that are not the builder's: sessions, lifetime, rendering.
  ghost predicate Publishable(p: Platform, g: SubscriptionGeneration, verifier: Key, s: RuntimeSnapshot,
                              address: string, checked: Time) {
    && s.generation != 0 && s.createdAt != UNSET && s.createdAt < s.expiresAt <= s.createdAt + DAY
    && PersistableSessions(s.sessions) && (checked < s.expiresAt ==> s.sessions.Valid())
    && MatchesBinding(p, g.binding, verifier, s.sessions.UserID())
    && (forall n | n in s.nodes && checked < s.expiresAt :: s.sessions.For(n.EffectiveProfile()).Some?)
    && (forall n | n in s.nodes :: !Masked(n))
    && HasEligible(s.nodes) && Fits(p, g, s.nodes, address)
  }

  ghost predicate BuiltFor(p: Platform, reg: Registry, g: SubscriptionGeneration, s: RuntimeSnapshot, nodes: seq<Node>,
                           previous: Selectors, t: Time) {
    && reg.Holds(g)
    && IsBuild(p, reg, g.number, nodes, previous, t, BuildResult(s.nodes, s.selectors))
    && DatedTombstones(previous) && "" !in previous
  }

  // All that the checks need to know of a built snapshot.
  ghost predicate SoundView(p: Platform, reg: Registry, want: nat, s: RuntimeSnapshot) {
    && |s.nodes| <= MAX_NODES && |s.selectors| <= MAX_SELECTOR_REFS
    && AllSettled(p, reg, s.nodes) && DistinctIds(s.nodes)
    && (forall name | name in s.selectors ::
          ValidReference(name, s.selectors[name], s.nodes) && s.selectors[name].generation == want)
    && (forall n | n in s.nodes :: n.selector in s.selectors && s.selectors[n.selector] == LiveRef(n, want))
    && (forall name | name in s.selectors && !s.selectors[name].tombstoned ::
          exists n :: n in s.nodes && n.selector == name)
  }

  lemma BuiltIsSound(p: Platform, reg: Registry, g: SubscriptionGeneration, s: RuntimeSnapshot, nodes: seq<Node>,
                     previous: Selectors, t: Time)
    requires LawfulHosts(p) && BuiltFor(p, reg, g, s, nodes, previous, t) && g.number != 0
    ensures SoundView(p, reg, g.number, s)
  {
    CountsWithin(p, reg, g.number, nodes, previous, t, BuildResult(s.nodes, s.selectors));
    ViewReferencesValid(p, reg, g.number, nodes, previous, t, BuildResult(s.nodes, s.selectors));
  }

  lemma SnapshotAccepted(p: Platform, reg: Registry, g: SubscriptionGeneration, verifier: Key, s: RuntimeSnapshot,
                         address: string, checked: Time)
    requires SoundView(p, reg, g.number, s) && Publishable(p, g, verifier, s, address, checked)
    ensures ValidRuntimeSnapshot(s, checked)
  {
    forall n | n in s.nodes
      ensures ValidRuntimeNode(n, s.sessions, checked < s.expiresAt)
    {
      assert Settled(p, reg, n);
    }
  }

  lemma ActiveMatchesStored(p: Platform, reg: Registry, s: RuntimeSnapshot, state: PersistentState)
    requires SoundView(p, reg, state.subscription.number, s) && Keyed(reg, state.subscription) && s.nodes != []
    requires state.lastGood.nodes == PersistAll(p, state.subscription, s.nodes)
    requires state.lastGood.body != "" && state.lastGood.generation == state.subscription.number
    ensures ActiveMatches(p, state, s)
  {
    StoredNodesValid(p, reg, state.subscription, s.nodes);
    forall n | n in s.nodes
      ensures ActiveNodeMatches(p, state, s.selectors, n)
    {
      assert Settled(p, reg, n);
      SettledPersist(p, reg, state.subscription, n);
    }
  }

  lemma ActiveAccepted(p: Platform, reg: Registry, s: RuntimeSnapshot, state: PersistentState, checked: Time,
                       address: string)
    requires SoundView(p, reg, state.subscription.number, s)
    requires state.verifier.Some? && Publishable(p, state.subscription, state.verifier.value, s, address, checked)
    ensures ValidActive(p, state, s, checked)
  {
    SnapshotAccepted(p, reg, state.subscription, state.verifier.value, s, address, checked);
  }

  // The parts of the aggregate check, put together.
  lemma Assembled(p: Platform, s: RuntimeSnapshot, state: PersistentState, checked: Time, address: string)
    requires state.subscription.Valid() && |state.subscription.binding| == KEY_SIZE
    requires state.verifier.Some? && |state.verifier.value| == KEY_SIZE
    requires state.active == Some(s) && ValidActive(p, state, s, checked) && ActiveMatches(p, state, s)
    requires ValidLastGood(p, state.lastGood, state.subscription.number)
    requires BodyMatchesNodes(p, state)
             && RendersAs(p, PersistedLinks(p, state.subscription, state.lastGood.nodes, false), address,
                          state.lastGood.body)
    ensures ServedValid(p, state, checked, address)
  {
  }

  // ---------- the whole aggregate ----------

  // What a plan made from a state promises.
  lemma PlanFacts(p: Platform, before: PersistentState, plan: CommitPlan, userID: string, now: Time,
                  entropy: Option<(Key, Key)>, earlier: Time)
    requires Lawful(p) && StateValid(p, before, earlier)
    requires Plan(p, before, userID, now, entropy) == Some(plan)
    requires now != UNSET && (entropy.Some? ==> |entropy.value.0| == KEY_SIZE && |entropy.value.1| == KEY_SIZE)
    ensures plan.generation.Valid() && |plan.generation.binding| == KEY_SIZE && plan.userID == userID
    ensures before.verifier.Some? && BindingFor(p, before.verifier.value, userID) == Some(plan.generation.binding)
    ensures before.subscription.Same(plan.previous)
    ensures before.subscription.Same(plan.generation) ==> before.subscription == plan.generation
  {
  }

  // A publication is accepted exactly when it is publishable.
  lemma AcceptedExactlyWhenPublishable(p: Platform, reg: Registry, before: PersistentState, plan: CommitPlan,
                                       userID: string, planned: Time, entropy: Option<(Key, Key)>,
                                       s: RuntimeSnapshot, nodes: seq<Node>, previous: Selectors, t: Time,
                                       address: string, now: Time, earlier: Time, checked: Time)
    requires Lawful(p) && StateValid(p, before, earlier)
    requires Plan(p, before, userID, planned, entropy) == Some(plan) && planned != UNSET && now != UNSET
    requires entropy.Some? ==> |entropy.value.0| == KEY_SIZE && |entropy.value.1| == KEY_SIZE
    requires BuiltFor(p, reg, plan.generation, s, nodes, previous, t)
    ensures (&& Candidate(p, before, plan, s, address, now).Some?
             && ServedValid(p, Candidate(p, before, plan, s, address, now).value, checked, address))
            <==> Publishable(p, plan.generation, before.verifier.value, s, address, checked)
  {
    PlanFacts(p, before, plan, userID, planned, entropy, earlier);
    if Publishable(p, plan.generation, before.verifier.value, s, address, checked) {
      PublishableIsAccepted(p, reg, before, plan, userID, planned, entropy, s, nodes, previous, t, address, now,
                            earlier, checked);
    }
    if Candidate(p, before, plan, s, address, now).Some?
        && ServedValid(p, Candidate(p, before, plan, s, address, now).value, checked, address) {
      AcceptedIsPublishable(p, reg, before, plan, userID, planned, entropy, s, nodes, previous, t, address, now,
                            earlier, checked);
    }
  }

  lemma PublishableIsAccepted(p: Platform, reg: Registry, before: PersistentState, plan: CommitPlan, userID: string,
                              planned: Time, entropy: Option<(Key, Key)>,
                              s: RuntimeSnapshot, nodes: seq<Node>, previous: Selectors, t: Time,
                              address: string, now: Time, earlier: Time, checked: Time)
    requires Lawful(p) && StateValid(p, before, earlier)
    requires Plan(p, before, userID, planned, entropy) == Some(plan) && planned != UNSET && now != UNSET
    requires entropy.Some? ==> |entropy.value.0| == KEY_SIZE && |entropy.value.1| == KEY_SIZE
    requires BuiltFor(p, reg, plan.generation, s, nodes, previous, t)
    requires before.verifier.Some? && Publishable(p, plan.generation, before.verifier.value, s, address, checked)
    ensures Candidate(p, before, plan, s, address, now).Some?
    ensures ServedValid(p, Candidate(p, before, plan, s, address, now).value, checked, address)
  {
    PlanFacts(p, before, plan, userID, planned, entropy, earlier);
    BuiltIsSound(p, reg, plan.generation, s, nodes, previous, t);
    SoundIsAccepted(p, reg, before, plan, s, address, now, earlier, checked);
  }

  // The state a publication starts from: the stored record of the same account,
  // or nothing for another one.
  ghost function Kept(before: PersistentState, g: SubscriptionGeneration): LastGood {
    if before.subscription.Same(g) then before.lastGood else EMPTY_LAST_GOOD
  }

  lemma CandidateShape(p: Platform, before: PersistentState, plan: CommitPlan, s: RuntimeSnapshot, address: string,
                       now: Time)
    requires before.verifier.Some? && |before.verifier.value| == KEY_SIZE && before.subscription.Same(plan.previous)
    requires BindingFor(p, before.verifier.value, plan.userID) == Some(plan.generation.binding)
    ensures var lg := NextLastGood(p, Kept(before, plan.generation), plan.generation, s.nodes, address, now);
            Candidate(p, before, plan, s, address, now) ==
            if lg.None? then None else Some(PersistentState(before.verifier, plan.generation, lg.value, Some(s)))
  {
  }

  lemma SoundIsAccepted(p: Platform, reg: Registry, before: PersistentState, plan: CommitPlan, s: RuntimeSnapshot,
                        address: string, now: Time, earlier: Time, checked: Time)
    requires Lawful(p) && StateValid(p, before, earlier) && now != UNSET
    requires plan.generation.Valid() && |plan.generation.binding| == KEY_SIZE
    requires before.verifier.Some? && BindingFor(p, before.verifier.value, plan.userID) == Some(plan.generation.binding)
    requires before.subscription.Same(plan.previous)
    requires Keyed(reg, plan.generation) && SoundView(p, reg, plan.generation.number, s)
    requires Publishable(p, plan.generation, before.verifier.value, s, address, checked)
    ensures Candidate(p, before, plan, s, address, now).Some?
    ensures ServedValid(p, Candidate(p, before, plan, s, address, now).value, checked, address)
  {
    var lg := Kept(before, plan.generation);
    assert ValidLastGood(p, lg, plan.generation.number);
    CandidateShape(p, before, plan, s, address, now);
    RendersExactly(p, reg, plan.generation, s.nodes, address);
    RecordExists(p, reg, plan.generation, lg, s.nodes, address, now);
    var c := Candidate(p, before, plan, s, address, now).value;
    RecordAccepted(p, reg, lg, s, c, address, now, checked);
  }

  lemma RecordAccepted(p: Platform, reg: Registry, lg: LastGood, s: RuntimeSnapshot, c: PersistentState,
                       address: string, now: Time, checked: Time)
    requires Lawful(p) && now != UNSET && c.active == Some(s)
    requires c.subscription.Valid() && |c.subscription.binding| == KEY_SIZE && c.verifier.Some?
             && |c.verifier.value| == KEY_SIZE
    requires Keyed(reg, c.subscription) && SoundView(p, reg, c.subscription.number, s)
    requires Publishable(p, c.subscription, c.verifier.value, s, address, checked)
    requires ValidLastGood(p, lg, c.subscription.number)
    requires NextLastGood(p, lg, c.subscription, s.nodes, address, now) == Some(c.lastGood)
    ensures ServedValid(p, c, checked, address)
  {
    RendersExactly(p, reg, c.subscription, s.nodes, address);
    RecordExists(p, reg, c.subscription, lg, s.nodes, address, now);
    RendersSomething(p, c.subscription, s.nodes, address);
    LastGoodAccepted(p, reg, lg, s.nodes, address, now, c);
    ActiveAccepted(p, reg, s, c, checked, address);
    ActiveMatchesStored(p, reg, s, c);
    Assembled(p, s, c, checked, address);
  }

  lemma AcceptedIsPublishable(p: Platform, reg: Registry, before: PersistentState, plan: CommitPlan, userID: string,
                              planned: Time, entropy: Option<(Key, Key)>,
                              s: RuntimeSnapshot, nodes: seq<Node>, previous: Selectors, t: Time,
                              address: string, now: Time, earlier: Time, checked: Time)
    requires Lawful(p) && StateValid(p, before, earlier)
    requires Plan(p, before, userID, planned, entropy) == Some(plan) && planned != UNSET && now != UNSET
    requires entropy.Some? ==> |entropy.value.0| == KEY_SIZE && |entropy.value.1| == KEY_SIZE
    requires BuiltFor(p, reg, plan.generation, s, nodes, previous, t)
    requires Candidate(p, before, plan, s, address, now).Some?
    requires ServedValid(p, Candidate(p, before, plan, s, address, now).value, checked, address)
    ensures before.verifier.Some? && Publishable(p, plan.generation, before.verifier.value, s, address, checked)
  {
    var g := plan.generation;
    PlanFacts(p, before, plan, userID, planned, entropy, earlier);
    BuiltIsSound(p, reg, g, s, nodes, previous, t);
    CandidateShape(p, before, plan, s, address, now);
    RecordPublishable(p, reg, Kept(before, g), s, Candidate(p, before, plan, s, address, now).value, address, now,
                      checked);
  }

  lemma RecordPublishable(p: Platform, reg: Registry, lg: LastGood, s: RuntimeSnapshot, c: PersistentState,
                          address: string, now: Time, checked: Time)
    requires Lawful(p) && c.active == Some(s) && c.verifier.Some?
    requires Keyed(reg, c.subscription) && SoundView(p, reg, c.subscription.number, s)
             && |c.subscription.binding| == KEY_SIZE
    requires NextLastGood(p, lg, c.subscription, s.nodes, address, now) == Some(c.lastGood)
    requires StateValid(p, c, checked)
    requires c.lastGood.body != "" ==>
               RendersAs(p, PersistedLinks(p, c.subscription, c.lastGood.nodes, false), address, c.lastGood.body)
    ensures Publishable(p, c.subscription, c.verifier.value, s, address, checked)
  {
    RecordLegible(p, reg, c.subscription, lg, s.nodes, address, now, c.lastGood);
    AcceptedSession(p, c, s, checked);
  }

  lemma RecordLegible(p: Platform, reg: Registry, g: SubscriptionGeneration, lg: LastGood, nodes: seq<Node>,
                      address: string, now: Time, next: LastGood)
    requires Lawful(p) && Keyed(reg, g) && AllSettled(p, reg, nodes) && DistinctIds(nodes) && |nodes| <= MAX_NODES
    requires NextLastGood(p, lg, g, nodes, address, now) == Some(next) && |g.binding| == KEY_SIZE
    requires next.body != "" ==> RendersAs(p, PersistedLinks(p, g, next.nodes, false), address, next.body)
    ensures (forall n | n in nodes :: !Masked(n)) && HasEligible(nodes) && Fits(p, g, nodes, address)
  {
    RecordRenders(p, lg, g, nodes, address, now);
    RecordExists(p, reg, g, lg, nodes, address, now);
    RendersExactly(p, reg, g, nodes, address);
    NothingMasked(p, reg, g, nodes, address, next.body);
  }

  lemma AcceptedSession(p: Platform, c: PersistentState, s: RuntimeSnapshot, checked: Time)
    requires c.active == Some(s) && StateValid(p, c, checked)
    ensures s.generation != 0 && s.createdAt != UNSET && s.createdAt < s.expiresAt <= s.createdAt + DAY
    ensures PersistableSessions(s.sessions) && (checked < s.expiresAt ==> s.sessions.Valid())
    ensures c.verifier.Some? && MatchesBinding(p, c.subscription.binding, c.verifier.value, s.sessions.UserID())
    ensures forall n | n in s.nodes && checked < s.expiresAt :: s.sessions.For(n.EffectiveProfile()).Some?
  {
    assert ValidActive(p, c, s, checked);
    forall n | n in s.nodes && checked < s.expiresAt
      ensures s.sessions.For(n.EffectiveProfile()).Some?
    {
      assert ValidRuntimeNode(n, s.sessions, checked < s.expiresAt);
    }
  }

  // A body that both renderings agree on hides no node.
  lemma NothingMasked(p: Platform, reg: Registry, g: SubscriptionGeneration, nodes: seq<Node>, address: string,
                      body: string)
    requires Lawful(p) && Keyed(reg, g) && AllSettled(p, reg, nodes) && DistinctIds(nodes) && |nodes| <= MAX_NODES
    requires RendersAs(p, NodeLinks(p, g, nodes), address, body)
    requires RendersAs(p, PersistedLinks(p, g, PersistAll(p, g, nodes), false), address, body)
    ensures forall n | n in nodes :: !Masked(n)
  {
    RendersSomething(p, g, nodes, address);
    NodeLinksUsable(p, reg, g, nodes);
    StoredNodesValid(p, reg, g, nodes);
    PersistedLinksUsable(p, g, PersistAll(p, g, nodes), false);
    BodyDeterminesCount(p, NodeLinks(p, g, nodes), PersistedLinks(p, g, PersistAll(p, g, nodes), false), address);
    MaskedCount(p, reg, g, nodes);
  }
}
