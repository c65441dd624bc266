/**
 Login and refresh under the manager's operation lease
 (internal/kuaifan/refresh.go). Answers of the provider are arguments; the
 merge, the first selector pass, the snapshot and its publication are here.
 */
module Refreshing {
  import opened Foundations
  import opened StateTypes
  import opened Platform
  import opened Credentials
  import opened SelectorRuns
  import opened Manager
  import opened Durable
  import opened FetchProof
  import opened Control
  import opened Publication

  // ---------- what the provider answers ----------

  datatype LoginSession = LoginSession(userID: int, token: string, isVIP: bool, vipEndsAt: Time)

  datatype Catalog = Catalog(providerToken: string, encryptKey: string, encryptType: string, extension: string,
                             nodes: seq<Node>)

  // One answer per client profile, iOS first; None for any failed request.
  datatype Answers = Answers(sessions: Option<(LoginSession, LoginSession)>, catalogs: Option<(Catalog, Catalog)>)

  predicate SameUser(a: LoginSession, b: LoginSession) {
    a.userID > 0 && a.userID == b.userID
  }

  predicate Complete(s: LoginSession, c: Catalog) {
    c.providerToken != "" && s.token != "" && c.nodes != []
  }

  predicate Answered(a: Answers) {
    && a.sessions.Some? && SameUser(a.sessions.value.0, a.sessions.value.1)
    && a.catalogs.Some? && Complete(a.sessions.value.0, a.catalogs.value.0)
        && Complete(a.sessions.value.1, a.catalogs.value.1)
  }

  // Which answer goes where: the session's token logs in, the catalog's key is the
  // password of tunnels, and the number of the user is written in digits.
  ghost predicate TakenFrom(s: LoginSession, c: Catalog, secrets: SessionSecrets) {
    && secrets.loginToken == s.token && secrets.providerToken == c.providerToken
    && secrets.tunnelPassword == c.encryptKey && secrets.tunnelMethod == c.encryptType
    && secrets.extension == c.extension
    && secrets.userID != "" && secrets.userID[0] != '0' && (forall d | d in secrets.userID :: IsDigit(d))
    && NumberOf(secrets.userID) == s.userID
  }

  // iOS first, then Windows.
  ghost predicate SessionsFrom(a: Answers, sessions: ClientSessions) {
    && a.sessions.Some? && a.catalogs.Some?
    && TakenFrom(a.sessions.value.0, a.catalogs.value.0, sessions.ios)
    && TakenFrom(a.sessions.value.1, a.catalogs.value.1, sessions.windows)
  }

  lemma TakenOnce(s: LoginSession, c: Catalog, x: SessionSecrets, y: SessionSecrets)
    requires TakenFrom(s, c, x) && TakenFrom(s, c, y)
    ensures x == y
  {
    DecimalUnique(x.userID);
    DecimalUnique(y.userID);
  }

  method SecretsOf(s: LoginSession, c: Catalog) returns (secrets: SessionSecrets)
    requires s.userID > 0
    ensures TakenFrom(s, c, secrets)
  {
    DecimalBack(s.userID);
    return SessionSecrets(Decimal(s.userID), s.token, c.providerToken, c.encryptKey, c.encryptType, c.extension);
  }

  // VIP only if both profiles agree, and until the earlier known end.
  function AccountOf(display: string, a: LoginSession, b: LoginSession): Option<AccountSummary> {
    if display == "" || !SameUser(a, b) then None
    else if !(a.isVIP && b.isVIP) then Some(AccountSummary(display, false, UNSET))
    else
      var ends := if a.vipEndsAt == UNSET || (b.vipEndsAt != UNSET && b.vipEndsAt < a.vipEndsAt) then b.vipEndsAt
          else a.vipEndsAt;
      if ends == UNSET then None else Some(AccountSummary(display, true, ends))
  }

  // The same as the program puts it together.
  method AggregateAccount(display: string, a: LoginSession, b: LoginSession) returns (r: Option<AccountSummary>)
    ensures r == AccountOf(display, a, b)
  {
    if display == "" || a.userID <= 0 || a.userID != b.userID {
      return None;
    }
    var isVIP := a.isVIP && b.isVIP;
    var ends := UNSET;
    if isVIP {
      ends := a.vipEndsAt;
      var other := b.vipEndsAt;
      if ends == UNSET || (other != UNSET && other < ends) {
        ends := other;
      }
      if ends == UNSET {
        return None;
      }
    }
    return Some(AccountSummary(display, isVIP, ends));
  }

  // A VIP account ends no later than either profile says, at a time one of them gives.
  lemma AccountEndsEarliest(display: string, a: LoginSession, b: LoginSession)
    requires AccountOf(display, a, b).Some?
    ensures var account := AccountOf(display, a, b).value;
            && account.display == display != "" && account.isVIP == (a.isVIP && b.isVIP)
            && (!account.isVIP ==> account.vipEndsAt == UNSET)
            && (account.isVIP ==>
                  && account.vipEndsAt in {a.vipEndsAt, b.vipEndsAt} && account.vipEndsAt != UNSET
                  && (a.vipEndsAt != UNSET ==> account.vipEndsAt <= a.vipEndsAt)
                  && (b.vipEndsAt != UNSET ==> account.vipEndsAt <= b.vipEndsAt))
            && AccountOf(display, b, a) == Some(account)
  {
  }

  // ---------- merging the profiles ----------

  function IdsOf(nodes: seq<Node>): set<string> {
    set n | n in nodes :: n.id
  }

  // First bearer of every identifier, in order.
  function Firsts(nodes: seq<Node>): seq<Node> {
    if nodes == [] then []
    else
      var front, last := nodes[..|nodes| - 1], nodes[|nodes| - 1];
      if last.id in IdsOf(front) then Firsts(front) else Firsts(front) + [last]
  }

  lemma IdsAppended(front: seq<Node>, last: Node)
    ensures IdsOf(front + [last]) == IdsOf(front) + {last.id}
  {
  }

  lemma FirstsAppended(front: seq<Node>, last: Node)
    ensures Firsts(front + [last]) == if last.id in IdsOf(front) then Firsts(front) else Firsts(front) + [last]
  {
    assert (front + [last])[..|front|] == front;
  }

  // The merge loses no identifier and repeats none.
  lemma {:induction false} FirstsKeepIds(nodes: seq<Node>)
    ensures IdsOf(Firsts(nodes)) == IdsOf(nodes) && DistinctIds(Firsts(nodes))
  {
    if nodes != [] {
      var front, last := nodes[..|nodes| - 1], nodes[|nodes| - 1];
      FirstsKeepIds(front);
      assert nodes == front + [last];
      IdsAppended(front, last);
      if last.id !in IdsOf(front) {
        IdsAppended(Firsts(front), last);
        assert forall n | n in Firsts(front) :: n.id in IdsOf(Firsts(front));
      }
    }
  }

  // And of several bearers it takes the first, so iOS goes before Windows.
  lemma {:induction false} FirstsAreFirst(nodes: seq<Node>)
    ensures forall n | n in Firsts(nodes) :: FindNode(nodes, n.id) == Some(n)
  {
    if nodes != [] {
      var front, last := nodes[..|nodes| - 1], nodes[|nodes| - 1];
      FirstsAreFirst(front);
      assert nodes == front + [last];
      FindAbsent(front, last.id);
      forall n | n in Firsts(nodes)
        ensures FindNode(nodes, n.id) == Some(n)
      {
        FindAppended(front, last, n.id);
      }
    }
  }

  lemma {:induction false} FindAppended(front: seq<Node>, last: Node, id: string)
    ensures FindNode(front + [last], id) ==
            if FindNode(front, id).Some? then FindNode(front, id) else if last.id == id then Some(last) else None
  {
    if front != [] {
      assert (front + [last])[1..] == front[1..] + [last];
      FindAppended(front[1..], last, id);
    }
  }

  lemma FindAbsent(nodes: seq<Node>, id: string)
    ensures FindNode(nodes, id).None? <==> id !in IdsOf(nodes)
  {
    if FindNode(nodes, id).Some? {
      assert FindNode(nodes, id).value in nodes;
    }
  }

  method MergeProfileNodes(ios: seq<Node>, windows: seq<Node>) returns (merged: seq<Node>)
    ensures merged == Firsts(ios + windows)
  {
    merged := [];
    var seen: set<string> := {};
    var all := ios + windows;
    for i := 0 to |all|
      invariant merged == Firsts(all[..i]) && seen == IdsOf(all[..i])
    {
      assert all[..i + 1] == all[..i] + [all[i]];
      IdsAppended(all[..i], all[i]);
      FirstsAppended(all[..i], all[i]);
      if all[i].id !in seen {
        seen := seen + {all[i].id};
        merged := merged + [all[i]];
      }
    }
    assert all[..|all|] == all;
  }

  // ---------- the offered snapshot ----------

  datatype Moments = Moments(begun: Time, built: Time, stamped: Time, finished: Time)

  // Everything an operation depends on besides what is held: the next registry
  // identity, the answers of the provider, the clock and the disk.
  datatype Request = Request(platform: Platform, lifetime: nat, address: string, id: nat,
                             answers: Answers, display: string, moments: Moments, e: Circumstances)

  function NextNumber(m: ManagerState): nat {
    if m.snapshot.None? then 1 else m.snapshot.value.generation + 1
  }

  function Previous(m: ManagerState): Selectors {
    if m.snapshot.None? then map[] else m.snapshot.value.selectors
  }

  function Merged(a: Answers): seq<Node>
    requires Answered(a)
  {
    Firsts(a.catalogs.value.0.nodes + a.catalogs.value.1.nodes)
  }

  // The snapshot handed to publication: next generation, both sessions, and the
  // merged nodes built under the registry in place.
  ghost predicate Offered(q: Request, m: ManagerState, registry: Registry, s: RuntimeSnapshot) {
    && Answered(q.answers) && registry.generation != 0
    && AccountOf(q.display, q.answers.sessions.value.0, q.answers.sessions.value.1) == Some(s.account)
    && s.generation == NextNumber(m) && SessionsFrom(q.answers, s.sessions)
    && s.createdAt == q.moments.stamped && s.expiresAt == q.moments.stamped + q.lifetime
    && IsBuild(q.platform, registry, registry.generation, Merged(q.answers),
               OfGeneration(Previous(m), registry.generation), q.moments.built, BuildResult(s.nodes, s.selectors))
  }

  // Why no snapshot can be put together.
  ghost predicate CannotOffer(q: Request, m: ManagerState, registry: Registry) {
    || !Answered(q.answers) || AccountOf(q.display, q.answers.sessions.value.0, q.answers.sessions.value.1).None?
    || registry.generation == 0
    || BuildProblem(q.platform, registry, registry.generation, Merged(q.answers),
                    OfGeneration(Previous(m), registry.generation)).Some?
  }

  // There is one snapshot to offer at most.
  lemma OfferedUnique(q: Request, m: ManagerState, registry: Registry, s1: RuntimeSnapshot, s2: RuntimeSnapshot)
    requires Offered(q, m, registry, s1) && Offered(q, m, registry, s2)
    ensures s1 == s2
  {
    var (sessions, catalogs) := (q.answers.sessions.value, q.answers.catalogs.value);
    TakenOnce(sessions.0, catalogs.0, s1.sessions.ios, s2.sessions.ios);
    TakenOnce(sessions.1, catalogs.1, s1.sessions.windows, s2.sessions.windows);
    BuildDeterministic(q.platform, registry, registry.generation, Merged(q.answers),
                       OfGeneration(Previous(m), registry.generation),
                       q.moments.built, BuildResult(s1.nodes, s1.selectors), BuildResult(s2.nodes, s2.selectors));
  }

  // With an unchanged generation the second selector pass inside publication
  // repeats the first: same nodes, and the same references but for tombstones
  // that ran out between the two clock readings.
  lemma SecondPassRepeats(q: Request, m: ManagerState, registry: Registry, offered: RuntimeSnapshot, next: Registry,
                          built: Time,
                          rebuilt: RuntimeSnapshot)
    requires LawfulHosts(q.platform) && Offered(q, m, registry, offered)
    requires next.generation == registry.generation
    requires next.selectorKey == registry.selectorKey && next.proxyKey == registry.proxyKey
    requires RebuiltUnder(q.platform, next, offered, built, rebuilt)
    ensures rebuilt == offered.(selectors := Unexpired(offered.selectors, built))
  {
    var (p, want, nodes) := (q.platform, registry.generation, Merged(q.answers));
    var previous := OfGeneration(Previous(m), want);
    var first, second := BuildResult(offered.nodes, offered.selectors), BuildResult(rebuilt.nodes, rebuilt.selectors);
    BuildRefersOnly(p, registry, want, nodes, previous, q.moments.built, first);
    assert OfGeneration(offered.selectors, want) == offered.selectors;
    SecondPassIsFixpoint(p, registry, next, nodes, previous, q.moments.built, first, want, built, second);
  }

  // ---------- the coordinator ----------

  // Withdrawn leaves all holders as they were, Torn a new aggregate on disk.
  datatype ControlResult =
    | Done(offered: RuntimeSnapshot, published: RuntimeSnapshot)
    | Rejected
    | Lapsed
    | Withdrawn
    | Torn

  // Where the manager stands while an operation runs.
  function Underway(m: ManagerState, op: Operation): ManagerState {
    m.(phase := Syncing, active := Some(op), lease := m.lease + 1)
  }

  function During(h: Holders, op: Operation): Holders {
    h.(m := Underway(h.m, op))
  }

  // What a failed operation leaves behind.
  function AfterFailure(m: ManagerState, op: Operation, now: Time): ManagerState {
    Finish(Underway(m, op), m.lease + 1, op, Outcome.Failed, now)
  }

  predicate Due(m: ManagerState, now: Time) {
    m.snapshot.Some? && m.snapshot.value.expiresAt != UNSET && m.snapshot.value.expiresAt <= now
  }

  // Sessions of both profiles that a refresh could start from.
  predicate Refreshable(m: ManagerState) {
    m.HoldsSessions() && m.snapshot.value.sessions.windows != NO_SESSION
  }

  // Why an operation that has begun comes to nothing: no session to refresh, no
  // snapshot to offer, a hurdle in its publication, or a clock that went back.
  ghost predicate Thwarted(q: Request, h: Holders, op: Operation) {
    || (op == RefreshOperation && !Refreshable(h.m))
    || CannotOffer(q, Underway(h.m, op), h.registry)
    || PublicationStops(q, During(h, op)) || CommitRefused(q, During(h, op))
  }

  ghost predicate PublicationStops(q: Request, h: Holders) {
    exists offered, hurdle ::
      Offered(q, h.m, h.registry, offered) && Stops(q.platform, h, q.id, offered, hurdle, q.address, q.e)
  }

  ghost predicate CommitRefused(q: Request, h: Holders) {
    exists offered, rebuilt ::
      Offered(q, h.m, h.registry, offered) && StoredButRefused(q.platform, h, q.id, offered, rebuilt, q.address, q.e)
  }

  // The aggregate was stored, refused in memory, and could not be taken back.
  ghost predicate TornBy(q: Request, h: Holders, mid: Holders) {
    exists offered :: Offered(q, h.m, h.registry, offered)
        && TornApart(q.platform, h, q.id, offered, q.address, q.e, mid)
  }

  // Without sessions of one user a login fails before it starts to synchronise.
  lemma RefusedLoginConcludes(q: Request, h: Holders, h': Holders)
    requires Begin(h.m, LoginOperation).Ok? && !Answered(q.answers)
    requires h' == h.(m := Finish(Begin(h.m, LoginOperation).value, h.m.lease + 1, LoginOperation, Outcome.Failed,
                                  q.moments.finished))
    ensures Concludes(q, h, LoginOperation, Withdrawn, h')
  {
    assert h'.m == AfterFailure(h.m, LoginOperation, q.moments.finished);
  }

  // It was torn; then the lease was released.
  ghost predicate TornAndReleased(q: Request, h: Holders, op: Operation, h': Holders) {
    exists mid :: TornBefore(q, h, op, mid, h')
  }

  ghost predicate TornBefore(q: Request, h: Holders, op: Operation, mid: Holders, h': Holders) {
    TornBy(q, During(h, op), mid)
        && h' == mid.(m := Finish(mid.m, h.m.lease + 1, op, Outcome.Failed, q.moments.finished))
  }

  lemma TornKeepsMemory(q: Request, h: Holders, mid: Holders)
    requires TornBy(q, h, mid)
    ensures mid.m == h.m && mid.registry == h.registry && mid.socks == h.socks
  {
    var offered :| Offered(q, h.m, h.registry, offered) && TornApart(q.platform, h, q.id, offered, q.address, q.e, mid);
  }

  lemma TornMemory(q: Request, h: Holders, op: Operation, mid: Holders)
    requires TornBy(q, During(h, op), mid)
    ensures mid.m == Underway(h.m, op) && mid.registry == h.registry && mid.socks == h.socks
  {
    TornKeepsMemory(q, During(h, op), mid);
  }

  lemma FailureAfter(m: ManagerState, before: ManagerState, op: Operation, now: Time)
    requires m == Underway(before, op)
    ensures Finish(m, before.lease + 1, op, Outcome.Failed, now) == AfterFailure(before, op, now)
  {
  }

  lemma TornShape(q: Request, h: Holders, op: Operation, mid: Holders, h': Holders)
    requires TornBefore(q, h, op, mid, h')
    ensures h'.registry == h.registry && h'.socks == h.socks && h'.m == AfterFailure(h.m, op, q.moments.finished)
  {
    TornMemory(q, h, op, mid);
    FailureAfter(mid.m, h.m, op, q.moments.finished);
  }

  // Nodes come from the line lists of the two profiles, which mark them.
  predicate Profiled(nodes: seq<Node>) {
    forall n | n in nodes :: n.EffectiveProfile().Known()
  }

  lemma SelectedProfiled(p: Platform, reg: Registry, nodes: seq<Node>)
    requires Profiled(nodes)
    ensures Profiled(Selected(p, reg, nodes))
  {
    forall n | n in Selected(p, reg, nodes)
      ensures n.EffectiveProfile().Known()
    {
      var k :| 0 <= k < |nodes| && Selected(p, reg, nodes)[k] == n;
      assert nodes[k] in nodes && n == Chosen(p, reg, nodes[k]);
    }
  }

  // A built node has the profile of a node it was built from.
  lemma BuiltProfiled(p: Platform, reg: Registry, want: nat, nodes: seq<Node>, previous: Selectors, now: Time,
                      r: BuildResult)
    requires IsBuild(p, reg, want, nodes, previous, now, r) && Profiled(nodes)
    ensures Profiled(r.nodes)
  {
    BuildFacts(p, reg, want, nodes, previous, now, r);
    SelectedProfiled(p, reg, nodes);
  }

  lemma MergedProfiled(a: Answers)
    requires Answered(a) && Profiled(a.catalogs.value.0.nodes) && Profiled(a.catalogs.value.1.nodes)
    ensures Profiled(Merged(a))
  {
    var all := a.catalogs.value.0.nodes + a.catalogs.value.1.nodes;
    FirstsAreFirst(all);
    forall n | n in Merged(a)
      ensures n in all
    {
      assert FindNode(all, n.id) == Some(n);
    }
  }

  // Both profiles have a session, so a marked node is never without one.
  lemma OfferHasSessions(q: Request, m: ManagerState, registry: Registry, offered: RuntimeSnapshot, next: Registry,
                         rebuilt: RuntimeSnapshot)
    requires Offered(q, m, registry, offered) && offered.sessions.Valid()
    requires RebuiltUnder(q.platform, next, offered, q.e.built, rebuilt)
    requires Profiled(q.answers.catalogs.value.0.nodes) && Profiled(q.answers.catalogs.value.1.nodes)
    ensures !Sessionless(rebuilt)
  {
    var p, want := q.platform, registry.generation;
    MergedProfiled(q.answers);
    BuiltProfiled(p, registry, want, Merged(q.answers), OfGeneration(Previous(m), want), q.moments.built,
                  BuildResult(offered.nodes, offered.selectors));
    BuiltProfiled(p, next, next.generation, offered.nodes, OfGeneration(offered.selectors, next.generation), q.e.built,
                  BuildResult(rebuilt.nodes, rebuilt.selectors));
    assert offered.sessions.windows.loginToken != "";
    assert offered.sessions.windows != NO_SESSION;
  }

  predicate Marked(a: Answers) {
    a.catalogs.Some? ==> Profiled(a.catalogs.value.0.nodes) && Profiled(a.catalogs.value.1.nodes)
  }

  lemma RefusedBackwards(q: Request, h: Holders)
    requires CommitRefused(q, h)
    ensures q.e.committed < q.e.checked && !Marked(q.answers)
  {
    var offered, rebuilt :|
      Offered(q, h.m, h.registry, offered) && StoredButRefused(q.platform, h, q.id, offered, rebuilt, q.address, q.e);
    RefusedOnlyBackwards(q.platform, h, q.id, offered, rebuilt, q.address, q.e);
    if Marked(q.answers) {
      var registry := NewRegistry(q.id, PlanOf(q.platform, h, offered, q.e).value.generation).value;
      OfferHasSessions(q, h.m, h.registry, offered, registry, rebuilt);
    }
  }

  // So only such a clock, a node without a profile and a failing disk together
  // tear the holders apart.
  lemma TornBackwards(q: Request, h: Holders, mid: Holders)
    requires TornBy(q, h, mid)
    ensures q.e.committed < q.e.checked && !(q.e.rewritable && StateValid(q.platform, h.durable, q.e.undone))
    ensures !Marked(q.answers)
  {
    var offered :| Offered(q, h.m, h.registry, offered) && TornApart(q.platform, h, q.id, offered, q.address, q.e, mid);
    var rebuilt :| StoredButRefused(q.platform, h, q.id, offered, rebuilt, q.address, q.e);
    assert CommitRefused(q, h);
    RefusedBackwards(q, h);
  }

  ghost predicate AdoptedBy(q: Request, h: Holders, offered: RuntimeSnapshot, published: RuntimeSnapshot, h': Holders) {
    Adopted(q.platform, h, q.id, offered, published, q.address, q.e, h')
  }

  // All holders adopted the snapshot; then the lease was released.
  ghost predicate AdoptedAndReleased(q: Request, h: Holders, offered: RuntimeSnapshot, published: RuntimeSnapshot,
                                     h': Holders) {
    exists mid :: AdoptedBy(q, h, offered, published, mid) && h' == mid.(m := mid.m.(active := None))
  }

  // How an operation ends: rejected with nothing changed; withdrawn with only
  // the manager's phase, lease and (for a login) sessions affected; done with
  // every holder adopting the new snapshot and the manager ready; or torn.
  ghost predicate Concludes(q: Request, h: Holders, op: Operation, r: ControlResult, h': Holders) {
    match r
    case Rejected => Begin(h.m, op).Err? && h' == h
    case Lapsed => false
    case Withdrawn =>
      Begin(h.m, op).Ok? && Thwarted(q, h, op)
      && Untouched(q.platform, h.(m := AfterFailure(h.m, op, q.moments.finished)), h')
    case Torn => Begin(h.m, op).Ok? && TornAndReleased(q, h, op, h')
    case Done(offered, published) =>
      && Begin(h.m, op).Ok? && Offered(q, Underway(h.m, op), h.registry, offered)
      && h'.m.phase == ServiceState.Ready && h'.m.active.None?
      && (op == RefreshOperation ==> Refreshable(h.m))
      && AdoptedAndReleased(q, During(h, op), offered, published, h')
  }

  // What a completed operation has put in every holder: the sessions of both
  // profiles as answered, a lifetime from the moment they were stamped, the
  // account of both, and nodes that the two catalogs list.
  ghost predicate Carries(q: Request, s: RuntimeSnapshot) {
    && SessionsFrom(q.answers, s.sessions)
    && s.createdAt == q.moments.stamped && s.expiresAt == q.moments.stamped + q.lifetime
    && s.account.display == q.display != ""
    && s.account.isVIP == (q.answers.sessions.value.0.isVIP && q.answers.sessions.value.1.isVIP)
    && AllListed(q.platform, q.answers.catalogs.value.0.nodes + q.answers.catalogs.value.1.nodes, s.nodes)
  }

  // A listed node with its host in canonical form, its provider in capital letters
  // and some selector; port, profile and everything else are as listed.
  ghost predicate Listed(p: Platform, list: seq<Node>, n: Node) {
    exists source | source in list ::
      && n == source.(provider := n.provider, host := n.host, selector := n.selector)
      && p.hostForm(source.host) == Some(n.host) && UpperCaseOf(source.provider, n.provider)
  }

  ghost predicate AllListed(p: Platform, list: seq<Node>, nodes: seq<Node>) {
    forall n | n in nodes :: Listed(p, list, n)
  }

  lemma BuiltIsListed(p: Platform, reg: Registry, want: nat, nodes: seq<Node>, previous: Selectors, now: Time,
                      r: BuildResult)
    requires IsBuild(p, reg, want, nodes, previous, now, r)
    ensures AllListed(p, nodes, r.nodes)
  {
    SurvivorsFrom(p, reg, nodes, Entombed(Selected(p, reg, nodes), previous, want, now));
    forall n | n in r.nodes
      ensures Listed(p, nodes, n)
    {
      var i :| 0 <= i < |nodes| && BuiltFrom(p, reg.selectorKey, nodes[i], n);
      assert nodes[i] in nodes;
    }
  }

  // Building what was built before changes neither host nor provider.
  lemma ListedAgain(p: Platform, list: seq<Node>, mid: seq<Node>, nodes: seq<Node>)
    requires LawfulHosts(p) && AllListed(p, list, mid) && AllListed(p, mid, nodes)
    ensures AllListed(p, list, nodes)
  {
    forall n | n in nodes
      ensures Listed(p, list, n)
    {
      var m :| m in mid && n == m.(provider := n.provider, host := n.host, selector := n.selector)
               && p.hostForm(m.host) == Some(n.host) && UpperCaseOf(m.provider, n.provider);
      assert Listed(p, list, m);
      var source :| source in list && m == source.(provider := m.provider, host := m.host, selector := m.selector)
                    && p.hostForm(source.host) == Some(m.host) && UpperCaseOf(source.provider, m.provider);
      UpperExactly(source.provider, m.provider);
      UpperExactly(m.provider, n.provider);
      UpperIdempotent(source.provider);
      assert p.hostForm(source.host).Some?;
    }
  }

  lemma ListedIn(p: Platform, list: seq<Node>, wider: seq<Node>, nodes: seq<Node>)
    requires AllListed(p, list, nodes) && forall n | n in list :: n in wider
    ensures AllListed(p, wider, nodes)
  {
    forall n | n in nodes
      ensures Listed(p, wider, n)
    {
      assert Listed(p, list, n);
    }
  }

  lemma OfferedListed(q: Request, m: ManagerState, registry: Registry, s: RuntimeSnapshot)
    requires Offered(q, m, registry, s)
    ensures AllListed(q.platform, q.answers.catalogs.value.0.nodes + q.answers.catalogs.value.1.nodes, s.nodes)
  {
    var all := q.answers.catalogs.value.0.nodes + q.answers.catalogs.value.1.nodes;
    BuiltIsListed(q.platform, registry, registry.generation, Merged(q.answers),
                  OfGeneration(Previous(m), registry.generation), q.moments.built, BuildResult(s.nodes, s.selectors));
    FirstsAreFirst(all);
    assert forall n | n in Merged(q.answers) :: FindNode(all, n.id) == Some(n);
    ListedIn(q.platform, Merged(q.answers), all, s.nodes);
  }

  lemma DoneCarries(q: Request, h: Holders, op: Operation, offered: RuntimeSnapshot, published: RuntimeSnapshot,
                    h': Holders)
    requires Concludes(q, h, op, Done(offered, published), h')
    ensures SessionsFrom(q.answers, published.sessions)
    ensures h'.m.snapshot == Some(published) && h'.durable.active == Some(published)
    ensures LawfulHosts(q.platform) ==> Carries(q, published)
  {
    var mid :| AdoptedBy(q, During(h, op), offered, published, mid) && h' == mid.(m := mid.m.(active := None));
    AccountEndsEarliest(q.display, q.answers.sessions.value.0, q.answers.sessions.value.1);
    if LawfulHosts(q.platform) {
      OfferedListed(q, Underway(h.m, op), h.registry, offered);
      BuiltIsListed(q.platform, mid.registry, mid.registry.generation, offered.nodes,
                    OfGeneration(offered.selectors, mid.registry.generation), q.e.built,
                    BuildResult(published.nodes, published.selectors));
      ListedAgain(q.platform, q.answers.catalogs.value.0.nodes + q.answers.catalogs.value.1.nodes, offered.nodes,
                  published.nodes);
    }
  }

  // Completing a published operation leaves the manager ready.
  lemma AdoptionReadies(q: Request, h: Holders, op: Operation, offered: RuntimeSnapshot, published: RuntimeSnapshot,
                        mid: Holders, h': Holders)
    requires AdoptedBy(q, During(h, op), offered, published, mid)
    requires h' == mid.(m := Finish(mid.m, h.m.lease + 1, op, Succeeded, q.moments.finished))
    ensures h'.m.phase == ServiceState.Ready && h'.m.active.None?
    ensures AdoptedAndReleased(q, During(h, op), offered, published, h')
  {
    assert mid.m == Committed(Underway(h.m, op).(subscription := mid.m.subscription), published);
    assert mid.m.active == Some(op) && mid.m.lease == h.m.lease + 1 && mid.m.phase == ServiceState.Ready;
    assert Finish(mid.m, h.m.lease + 1, op, Succeeded, q.moments.finished) == mid.m.(active := None);
  }

  lemma DoneConcludes(q: Request, h: Holders, op: Operation, offered: RuntimeSnapshot, published: RuntimeSnapshot,
                      h': Holders)
    requires Begin(h.m, op).Ok? && h'.m.phase == ServiceState.Ready && h'.m.active.None?
    requires op == RefreshOperation ==> Refreshable(h.m)
    requires Offered(q, Underway(h.m, op), h.registry, offered)
             && AdoptedAndReleased(q, During(h, op), offered, published, h')
    ensures Concludes(q, h, op, Done(offered, published), h')
  {
  }

  // Failing after an untouched attempt leaves only the manager's own traces.
  lemma WithdrawnConcludes(q: Request, h: Holders, op: Operation, mid: Holders, h': Holders)
    requires Begin(h.m, op).Ok? && Untouched(q.platform, During(h, op), mid) && Thwarted(q, h, op)
    requires h' == mid.(m := Finish(mid.m, h.m.lease + 1, op, Outcome.Failed, q.moments.finished))
    ensures Concludes(q, h, op, Withdrawn, h')
  {
  }

  lemma TornConcludes(q: Request, h: Holders, op: Operation, mid: Holders, h': Holders)
    requires Begin(h.m, op).Ok? && TornBy(q, During(h, op), mid)
    requires h' == mid.(m := Finish(mid.m, h.m.lease + 1, op, Outcome.Failed, q.moments.finished))
    ensures Concludes(q, h, op, Torn, h')
  {
    assert TornBefore(q, h, op, mid, h');
  }

  // What an attempt makes of the holders while the lease is still taken.
  ghost predicate Attempted(q: Request, h: Holders, r: ControlResult, mid: Holders) {
    match r
    case Done(offered, published) => Offered(q, h.m, h.registry, offered) && AdoptedBy(q, h, offered, published, mid)
    case Withdrawn => (CannotOffer(q, h.m, h.registry) || PublicationStops(q, h) || CommitRefused(q, h))
        && Untouched(q.platform, h, mid)
    case Torn => TornBy(q, h, mid)
    case _ => false
  }

  lemma AttemptConcludes(q: Request, h: Holders, op: Operation, r: ControlResult, mid: Holders, h': Holders)
    requires Begin(h.m, op).Ok? && Attempted(q, During(h, op), r, mid)
    requires op == RefreshOperation ==> Refreshable(h.m)
    requires var outcome := if r.Done? then Succeeded else Outcome.Failed;
             h' == mid.(m := Finish(mid.m, h.m.lease + 1, op, outcome, q.moments.finished))
    ensures Concludes(q, h, op, r, h')
  {
    match r
    case Done(offered, published) =>
      AdoptionReadies(q, h, op, offered, published, mid, h');
      DoneConcludes(q, h, op, offered, published, h');
    case Withdrawn => WithdrawnConcludes(q, h, op, mid, h');
    case Torn => TornConcludes(q, h, op, mid, h');
  }

  class Refresher {
    const publisher: Publisher
    const lifetime: nat

    constructor (publisher: Publisher, lifetime: nat)
      ensures this.publisher == publisher && this.lifetime == lifetime
    {
      this.publisher := publisher;
      this.lifetime := lifetime;
    }

    ghost predicate Ready()
      reads publisher, publisher.manager, publisher.selectors, publisher.selectors.socks
      reads publisher.subscriptions, publisher.subscriptions.store
    {
      publisher.Wired() && publisher.Recorded() && publisher.Booked()
    }

    ghost function Ask(a: Answers, display: string, t: Moments, e: Circumstances): Request
      reads publisher.subscriptions, publisher.selectors
    {
      Request(publisher.platform, lifetime, publisher.subscriptions.address, publisher.selectors.nextId, a, display, t,
              e)
    }

    // Both records only grow; the fetchers under way are the same.
    twostate predicate Grown()
      reads publisher
    {
      && publisher.history.Extends(old(publisher.history)) && publisher.ledger.Extends(old(publisher.ledger))
      && publisher.ledger.InFlight() == old(publisher.ledger.InFlight())
    }

    method ExpireIfNeeded(now: Time) returns (expired: bool, failed: bool)
      requires Ready()
      modifies publisher, publisher.manager
      ensures Ready() && Grown() && publisher.ledger == old(publisher.ledger)
      ensures expired == Due(old(publisher.manager.View()), now)
      ensures failed == (expired
                         && old(publisher.manager.phase) !in {ServiceState.Expired, ServiceState.Ready,
                                                              ServiceState.Degraded})
      ensures publisher.manager.View() ==
              if expired && old(publisher.manager.phase) in {ServiceState.Ready, ServiceState.Degraded}
              then ExpireLocked(old(publisher.manager.View()), now) else old(publisher.manager.View())
    {
      var manager := publisher.manager;
      if manager.snapshot.None? || manager.snapshot.value.expiresAt == UNSET || now < manager.snapshot.value.expiresAt {
        return false, false;
      }
      if manager.phase == ServiceState.Expired {
        return true, false;
      }
      if manager.phase != ServiceState.Ready && manager.phase != ServiceState.Degraded {
        return true, true;
      }
      var err := manager.MarkExpired(now);
      publisher.Record(Lapse(now), Idle);
      return true, false;
    }

    method BuildSelectors(nodes: seq<Node>, previous: Selectors, now: Time) returns (r: Option<BuildResult>)
      ensures var registry := publisher.selectors.registry;
              var (p, want, chosen) := (publisher.selectors.platform, registry.generation,
                                        OfGeneration(previous, registry.generation));
              if r.Some? then want != 0 && IsBuild(p, registry, want, nodes, chosen, now, r.value)
              else want == 0 || BuildProblem(p, registry, want, nodes, chosen).Some?
    {
      var registry := publisher.selectors.registry;
      if registry.generation == 0 {
        return None;
      }
      var chosen := SelectorsForGeneration(previous, registry.generation);
      var built := BuildWithTombstones(publisher.selectors.platform, registry, registry.generation, nodes, chosen, now);
      return if built.Ok? then Some(built.value) else None;
    }

    // The snapshot of one round of answers, if it can be put together.
    method Compose(a: Answers, display: string, t: Moments, ghost e: Circumstances) returns (r: Option<RuntimeSnapshot>)
      requires publisher.Wired()
      ensures r.Some? ==>
                Offered(Ask(a, display, t, e), publisher.manager.View(), publisher.selectors.registry, r.value)
      ensures r.None? ==> CannotOffer(Ask(a, display, t, e), publisher.manager.View(), publisher.selectors.registry)
    {
      if a.sessions.None? || a.catalogs.None? {
        return None;
      }
      var (first, second) := a.sessions.value;
      if first.userID <= 0 || first.userID != second.userID {
        return None;
      }
      var (ios, windows) := a.catalogs.value;
      if ios.providerToken == "" || first.token == "" || |ios.nodes| == 0 {
        return None;
      }
      if windows.providerToken == "" || second.token == "" || |windows.nodes| == 0 {
        return None;
      }
      var account := AggregateAccount(display, first, second);
      if account.None? {
        return None;
      }
      var manager := publisher.manager;
      var generation, previous := 1, map[];
      if manager.snapshot.Some? {
        generation, previous := manager.snapshot.value.generation + 1, manager.snapshot.value.selectors;
      }
      var merged := MergeProfileNodes(ios.nodes, windows.nodes);
      var built := BuildSelectors(merged, previous, t.built);
      if built.None? {
        return None;
      }
      var iosSecrets := SecretsOf(first, ios);
      var windowsSecrets := SecretsOf(second, windows);
      return Some(RuntimeSnapshot(generation, t.stamped, t.stamped + lifetime, account.value,
                                  ClientSessions(iosSecrets, windowsSecrets), built.value.nodes,
                                      built.value.selectors));
    }

    // Offer a snapshot and publish it.
    method CommitAnswers(a: Answers, display: string, t: Moments, e: Circumstances) returns (r: ControlResult)
      requires Ready()
      modifies publisher, publisher.manager, publisher.subscriptions, publisher.subscriptions.store
      modifies publisher.selectors, publisher.selectors.socks
      ensures Ready() && Grown() && publisher.subscriptions.address == old(publisher.subscriptions.address)
      ensures Attempted(old(Ask(a, display, t, e)), old(publisher.Held()), r, publisher.Held())
    {
      ghost var q, h := Ask(a, display, t, e), publisher.Held();
      var offered := Compose(a, display, t, e);
      if offered.None? {
        return Withdrawn;
      }
      var outcome := publisher.Publish(offered.value, e);
      match outcome
      case Published(snapshot) => return Done(offered.value, snapshot);
      case Stopped(_) => return Withdrawn;
      case Aborted(restored) =>
        ghost var rebuilt :| StoredButRefused(q.platform, h, q.id, offered.value, rebuilt, q.address, q.e);
        assert CommitRefused(q, h);
        return if restored then Withdrawn else Torn;
    }

    method Login(a: Answers, display: string, t: Moments, e: Circumstances) returns (r: ControlResult)
      requires Ready()
      modifies publisher, publisher.manager, publisher.subscriptions, publisher.subscriptions.store
      modifies publisher.selectors, publisher.selectors.socks
      ensures Ready() && Grown() && publisher.subscriptions.address == old(publisher.subscriptions.address)
      ensures Concludes(old(Ask(a, display, t, e)), old(publisher.Held()), LoginOperation, r, publisher.Held())
      ensures r.Done? ==>
                publisher.manager.snapshot.Some? && SessionsFrom(a, publisher.manager.snapshot.value.sessions)
    {
      ghost var q, h := Ask(a, display, t, e), publisher.Held();
      var begun := Enter(LoginOperation);
      if begun.Err? {
        return Rejected;
      }
      if a.sessions.None? || a.sessions.value.0.userID <= 0
         || a.sessions.value.0.userID != a.sessions.value.1.userID {
        Release(begun.value, LoginOperation, Outcome.Failed, t.finished);
        RefusedLoginConcludes(q, h, publisher.Held());
        return Withdrawn;
      }
      Synchronise();
      ghost var history := publisher.history;
      r := Attempt(LoginOperation, begun.value, h, a, display, t, e);
      HistoryGrows(old(publisher.history), history, publisher.history);
      if r.Done? {
        DoneCarries(q, h, LoginOperation, r.offered, r.published, publisher.Held());
      }
    }

    // From authenticating this transition is always allowed.
    method Synchronise()
      requires Ready() && publisher.manager.phase == Authenticating
      modifies publisher, publisher.manager
      ensures Ready() && Grown() && publisher.ledger == old(publisher.ledger)
      ensures publisher.Held() == old(publisher.Held()).(m := old(publisher.Held()).m.(phase := Syncing))
    {
      var err := publisher.manager.MoveTo(Syncing);
      publisher.Record(Sync, Idle);
    }

    method Refresh(a: Answers, t: Moments, e: Circumstances) returns (r: ControlResult)
      requires Ready()
      modifies publisher, publisher.manager, publisher.subscriptions, publisher.subscriptions.store
      modifies publisher.selectors, publisher.selectors.socks
      ensures Ready() && Grown() && publisher.subscriptions.address == old(publisher.subscriptions.address)
      ensures RefreshEnds(old(Ask(a, DisplayOf(publisher.manager.View()), t, e)), old(publisher.Held()), r,
                          publisher.Held())
      ensures r.Done? ==>
                publisher.manager.snapshot.Some? && SessionsFrom(a, publisher.manager.snapshot.value.sessions)
    {
      ghost var q, h := Ask(a, DisplayOf(publisher.manager.View()), t, e), publisher.Held();
      var expired, failed := ExpireIfNeeded(t.begun);
      if expired {
        return Lapsed;
      }
      r := Renew(a, t, e);
      if r.Done? {
        DoneCarries(q, h, RefreshOperation, r.offered, r.published, publisher.Held());
      }
    }

    // A refresh of authority that has not run out.
    method Renew(a: Answers, t: Moments, e: Circumstances) returns (r: ControlResult)
      requires Ready()
      modifies publisher, publisher.manager, publisher.subscriptions, publisher.subscriptions.store
      modifies publisher.selectors, publisher.selectors.socks
      ensures Ready() && Grown() && publisher.subscriptions.address == old(publisher.subscriptions.address)
      ensures Concludes(old(Ask(a, DisplayOf(publisher.manager.View()), t, e)), old(publisher.Held()),
                        RefreshOperation, r, publisher.Held())
    {
      ghost var q, h := Ask(a, DisplayOf(publisher.manager.View()), t, e), publisher.Held();
      var manager := publisher.manager;
      var begun := Enter(RefreshOperation);
      if begun.Err? {
        return Rejected;
      }
      if manager.snapshot.None? || !manager.snapshot.value.sessions.Valid()
          || manager.snapshot.value.sessions.windows == NO_SESSION {
        ghost var mid := publisher.Held();
        Release(begun.value, RefreshOperation, Outcome.Failed, t.finished);
        WithdrawnConcludes(q, h, RefreshOperation, mid, publisher.Held());
        return Withdrawn;
      }
      ghost var history := publisher.history;
      r := Attempt(RefreshOperation, begun.value, h, a, manager.snapshot.value.account.display, t, e);
      HistoryGrows(old(publisher.history), history, publisher.history);
    }

    // Everything after the provider sessions, with the completion; h is what was
    // held before the operation began.
    method Attempt(op: Operation, lease: nat, ghost h: Holders, a: Answers, display: string, t: Moments,
                   e: Circumstances)
      returns (r: ControlResult)
      requires Ready() && Begin(h.m, op).Ok? && lease == h.m.lease + 1 && publisher.Held() == During(h, op)
      requires op == RefreshOperation ==> Refreshable(h.m)
      modifies publisher, publisher.manager, publisher.subscriptions, publisher.subscriptions.store
      modifies publisher.selectors, publisher.selectors.socks
      ensures Ready() && Grown() && publisher.subscriptions.address == old(publisher.subscriptions.address)
      ensures Concludes(old(Ask(a, display, t, e)), h, op, r, publisher.Held())
    {
      ghost var q := Ask(a, display, t, e);
      r := CommitAnswers(a, display, t, e);
      ghost var mid, history := publisher.Held(), publisher.history;
      Release(lease, op, if r.Done? then Succeeded else Outcome.Failed, t.finished);
      HistoryGrows(old(publisher.history), history, publisher.history);
      AttemptConcludes(q, h, op, r, mid, publisher.Held());
    }

    // The lease of an operation.
    method Enter(op: Operation) returns (begun: Result<nat, ManagerError>)
      requires Ready()
      modifies publisher, publisher.manager
      ensures Ready() && Grown() && publisher.ledger == old(publisher.ledger)
      ensures var step := Begin(old(publisher.Held()).m, op);
              if step.Ok? then publisher.Held() == old(publisher.Held()).(m := step.value)
                  && begun == Ok(step.value.lease)
              else publisher.Held() == old(publisher.Held()) && begun == Err(step.error)
    {
      begun := publisher.manager.BeginOperation(op);
      if begun.Ok? {
        publisher.Record(Start(op), Idle);
      }
    }

    // The deferred completion.
    method Release(lease: nat, op: Operation, outcome: Outcome, now: Time)
      requires Ready()
      modifies publisher, publisher.manager
      ensures Ready() && Grown() && publisher.ledger == old(publisher.ledger)
      ensures publisher.Held() == old(publisher.Held()).(m := Finish(old(publisher.Held()).m, lease, op, outcome, now))
    {
      publisher.manager.FinishOperation(lease, op, outcome, now);
      publisher.Record(Complete(lease, op, outcome, now), Idle);
    }
  }

  function DisplayOf(m: ManagerState): string {
    if m.snapshot.None? then "" else m.snapshot.value.account.display
  }

  // A refresh lapses exactly when its authority has run out, and ends as any
  // operation otherwise.
  ghost predicate RefreshEnds(q: Request, h: Holders, r: ControlResult, h': Holders) {
    if Due(h.m, q.moments.begun) then
      r.Lapsed? && h' == h.(m := if h.m.phase in {ServiceState.Ready, ServiceState.Degraded}
                            then ExpireLocked(h.m, q.moments.begun) else h.m)
    else !r.Lapsed? && Concludes(q, h, RefreshOperation, r, h')
  }
}
