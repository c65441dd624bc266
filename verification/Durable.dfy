/**
 The two checks on the durable aggregate: the structural one the store runs on
 every write (internal/state/types.go) and the one that derives all credentials
 again and renders the stored body again (internal/subscription/service.go).
 */
module Durable {
  import opened Foundations
  import opened StateTypes
  import opened Platform
  import opened Credentials
  import opened Manager
  import opened Rendering

  // ---------- the stored session ----------

  const IOS_IDENTITY := ("cc.fancast.major", "MAC", "1.0.46")
  const WINDOWS_IDENTITY := ("com.wifiin.sdk.invpn.win", "WINDOWS", "4.3.30")

  predicate ProviderField(s: string) {
    0 < |s| <= MAX_SESSION_FIELD && forall c | c in s :: '!' <= c <= '~' && c != '|'
  }

  predicate ExtensionFor(identity: (string, string, string), extension: string) {
    var parts := Split(extension, '|');
    && 0 < |extension| <= MAX_EXTENSION
    && |parts| == 7 && parts[0] == "" && parts[2] == identity.0 && parts[5] == identity.1 && parts[6] == identity.2
    && ProviderField(parts[1]) && ProviderField(parts[3]) && ProviderField(parts[4])
  }

  predicate PersistableSession(identity: (string, string, string), s: SessionSecrets) {
    && s.Valid() && s.tunnelMethod == TUNNEL_METHOD && ExtensionFor(identity, s.extension)
    && var parts := Split(s.extension, '|'); parts[1] == s.providerToken && parts[4] == s.userID
  }

  predicate PersistableSessions(s: ClientSessions) {
    && PersistableSession(IOS_IDENTITY, s.ios)
    && (s.windows == NO_SESSION || PersistableSession(WINDOWS_IDENTITY, s.windows))
  }

  // ---------- the stored body, structurally ----------

  predicate CountedEligible(n: PersistedNode) {
    n.eligible && IsWifiin(n.provider)
  }

  function Count(nodes: seq<PersistedNode>, legacy: bool): nat {
    if nodes == [] then 0
    else
      var last := nodes[|nodes| - 1];
      Count(nodes[..|nodes| - 1], legacy) + if CountedEligible(last) && !(legacy && last.excluded) then 1 else 0
  }

  predicate ValidLine(p: Platform, line: string) {
    && line != "" && '\r' !in line
    && var link := p.parseLink(line);
    && link.Some? && link.value.text == line && link.value.scheme == "socks5" && link.value.opaqueness == ""
    && link.value.host != "" && link.value.path == "" && link.value.query == ""
    && link.value.hasUser && link.value.username != ""
    && link.value.password.Some? && link.value.password.value != ""
  }

  ghost predicate ValidBody(p: Platform, body: string, nodes: seq<PersistedNode>) {
    && 0 < |body| <= MAX_RENDERED
    && var text := p.decode(body);
    && text.Some? && p.encode(text.value) == body && p.utf8(text.value)
    && text.value != "" && text.value[|text.value| - 1] == '\n'
    && Count(nodes, false) > 0
    && var lines := Split(text.value[..|text.value| - 1], '\n');
    && (|lines| == Count(nodes, false) || |lines| == Count(nodes, true))
    && forall line | line in lines :: ValidLine(p, line)
  }

  ghost predicate ValidPersistedNodes(nodes: seq<PersistedNode>) {
    && 0 < |nodes| <= MAX_NODES
    && (forall n | n in nodes :: n.Valid())
    && DistinctStored(nodes)
  }

  ghost predicate ValidLastGood(p: Platform, lg: LastGood, activeGeneration: nat) {
    lg == EMPTY_LAST_GOOD ||
    (&& lg.generation == activeGeneration && lg.createdAt != UNSET && lg.nodes != [] && lg.body != ""
     && (|lg.fetchedHash| == 0 || |lg.fetchedHash| == KEY_SIZE)
     && (lg.fetchedAt != UNSET <==> |lg.fetchedHash| == KEY_SIZE)
     && (lg.fetchedAt != UNSET <==> lg.fetchedGeneration != 0)
     && (lg.fetchedAt != UNSET ==> lg.fetchedGeneration <= lg.generation && lg.createdAt <= lg.fetchedAt)
     && ValidPersistedNodes(lg.nodes)
     && ValidBody(p, lg.body, lg.nodes))
  }

  ghost predicate ValidActive(p: Platform, s: PersistentState, active: RuntimeSnapshot, now: Time) {
    && ValidRuntimeSnapshot(active, now)
    && PersistableSessions(active.sessions)
    && s.verifier.Some? && MatchesBinding(p, s.subscription.binding, s.verifier.value, active.sessions.UserID())
    && forall name | name in active.selectors :: active.selectors[name].generation == s.subscription.number
  }

  // The check the store runs before every write.
  ghost predicate StateValid(p: Platform, s: PersistentState, now: Time) {
    && (s.verifier.Some? ==> |s.verifier.value| == KEY_SIZE)
    && s.subscription.Valid()
    && (|s.subscription.binding| != 0 ==> s.verifier.Some?)
    && (if |s.subscription.binding| == 0 then s.lastGood == EMPTY_LAST_GOOD && s.active.None?
        else ValidLastGood(p, s.lastGood, s.subscription.number))
    && (s.active.Some? ==> ValidActive(p, s, s.active.value, now))
  }

  // ---------- the stored body, derived again ----------

  function DeriveNode(p: Platform, g: SubscriptionGeneration, id: string, provider: string, host: string,
                      port: nat): Result<Pair, BuildError> {
    Derive(p, id, provider, host, port, g.selectorKey, g.proxyKey)
  }

  ghost predicate Derived(p: Platform, g: SubscriptionGeneration, n: PersistedNode) {
    var pair := DeriveNode(p, g, n.id, n.provider, n.host, n.port);
    pair.Ok? && pair.value.selector == n.selector
  }

  function PersistedLink(p: Platform, g: SubscriptionGeneration, n: PersistedNode, legacy: bool): Link {
    var pair := DeriveNode(p, g, n.id, n.provider, n.host, n.port);
    if pair.Err? then Link("", "", n.name, n.group, false)
    else Link(pair.value.selector, pair.value.password, n.name, n.group, n.Renderable() && !(legacy && n.excluded))
  }

  function PersistedLinks(p: Platform, g: SubscriptionGeneration, nodes: seq<PersistedNode>, legacy: bool): seq<Link> {
    seq(|nodes|, i requires 0 <= i < |nodes| => PersistedLink(p, g, nodes[i], legacy))
  }

  // The address shown in the first line of a body.
  function BodyAddress(p: Platform, body: string): Option<string> {
    var text := p.decode(body);
    if text.None? || p.encode(text.value) != body || text.value == "" || text.value[|text.value| - 1] != '\n' then None
    else
      var first := p.parseLink(Split(text.value[..|text.value| - 1], '\n')[0]);
      if first.None? || first.value.scheme != "socks5" || !first.value.hasUser || first.value.host == ""
         || first.value.query != ""
         || p.hostPort(first.value.host).None?
      then None else Some(first.value.host)
  }

  ghost predicate RendersAs(p: Platform, links: seq<Link>, address: string, body: string) {
    Rendered(p, links, address).Ok? && Rendered(p, links, address).value.0 == body
  }

  ghost predicate BodyMatchesNodes(p: Platform, s: PersistentState) {
    var address := BodyAddress(p, s.lastGood.body);
    && |s.subscription.binding| == KEY_SIZE && s.lastGood.generation == s.subscription.number
    && address.Some?
    && (forall n | n in s.lastGood.nodes :: Derived(p, s.subscription, n))
    && (RendersAs(p, PersistedLinks(p, s.subscription, s.lastGood.nodes, false), address.value, s.lastGood.body)
        || RendersAs(p, PersistedLinks(p, s.subscription, s.lastGood.nodes, true), address.value, s.lastGood.body))
  }

  function Persist(n: Node): PersistedNode {
    PersistedNode(n.id, n.selector, n.provider, n.host, n.port, n.name, n.group, n.eligible, n.excluded)
  }

  ghost predicate ActiveNodeMatches(p: Platform, s: PersistentState, selectors: Selectors, n: Node) {
    && Persist(n) in s.lastGood.nodes
    && Derived(p, s.subscription, Persist(n))
    && n.selector in selectors
    && selectors[n.selector].nodeID == n.id && !selectors[n.selector].tombstoned
    && selectors[n.selector].generation == s.subscription.number
  }

  ghost predicate ActiveMatches(p: Platform, s: PersistentState, active: RuntimeSnapshot) {
    && s.lastGood.body != "" && s.lastGood.generation == s.subscription.number
    && |active.nodes| == |s.lastGood.nodes|
    && (forall n | n in active.nodes :: ActiveNodeMatches(p, s, active.selectors, n))
    && (forall name | name in active.selectors && !active.selectors[name].tombstoned ::
          exists n :: n in active.nodes && n.selector == name)
  }

  // The check that derives everything again.
  ghost predicate AggregateValid(p: Platform, s: PersistentState, now: Time) {
    && StateValid(p, s, now)
    && (if s.lastGood.body == "" then s.lastGood == EMPTY_LAST_GOOD else BodyMatchesNodes(p, s))
    && (s.active.Some? ==> ActiveMatches(p, s, s.active.value))
  }

  // The same, for a service that serves at a given address.
  ghost predicate ServedValid(p: Platform, s: PersistentState, now: Time, address: string) {
    && AggregateValid(p, s, now)
    && (s.lastGood.body != "" ==>
          RendersAs(p, PersistedLinks(p, s.subscription, s.lastGood.nodes, false), address, s.lastGood.body))
  }

  // ---------- derived links ----------

  lemma PersistedLinksCoherent(p: Platform, g: SubscriptionGeneration, nodes: seq<PersistedNode>, legacy: bool)
    ensures Coherent(PersistedLinks(p, g, nodes, legacy))
  {
    var links := PersistedLinks(p, g, nodes, legacy);
    forall a, b | a in links && b in links && a.selector == b.selector
      ensures a.password == b.password
    {
      var i :| 0 <= i < |links| && links[i] == a;
      var j :| 0 <= j < |links| && links[j] == b;
      LinkPassword(p, g, nodes[i], legacy);
      LinkPassword(p, g, nodes[j], legacy);
    }
  }

  lemma LinkPassword(p: Platform, g: SubscriptionGeneration, n: PersistedNode, legacy: bool)
    ensures var l := PersistedLink(p, g, n, legacy);
            l.password == if l.selector == "" then "" else PasswordFor(p, g.proxyKey, l.selector)
  {
  }

  // ---------- the checks as the program runs them ----------

  method ValidateNodes(nodes: seq<PersistedNode>) returns (ok: bool)
    ensures ok <==> ValidPersistedNodes(nodes)
  {
    if |nodes| == 0 || |nodes| > MAX_NODES {
      return false;
    }
    var ids: set<string> := {};
    for i := 0 to |nodes|
      invariant ids == set j: nat | j < i :: nodes[j].id
      invariant forall j | 0 <= j < i :: nodes[j].Valid()
      invariant forall j, k | 0 <= j < k < i :: nodes[j].id != nodes[k].id
    {
      assert nodes[i] in nodes;
      var n := nodes[i];
      if n.selector == "" || n.id == "" || n.provider == "" || n.host == "" || n.port == 0 {
        return false;
      }
      if NUL in n.provider || NUL in n.host {
        return false;
      }
      if nodes[i].id in ids {
        ghost var j: nat :| j < i && nodes[j].id == nodes[i].id;
        return false;
      }
      ids := ids + {nodes[i].id};
    }
    return true;
  }

  method ValidateBody(p: Platform, body: string, nodes: seq<PersistedNode>) returns (ok: bool)
    ensures ok <==> ValidBody(p, body, nodes)
  {
    if |body| == 0 || |body| > MAX_RENDERED {
      return false;
    }
    var text := p.decode(body);
    if text.None? || p.encode(text.value) != body || !p.utf8(text.value) || |text.value| == 0
        || text.value[|text.value| - 1] != '\n' {
      return false;
    }
    var eligible, unexcluded := 0, 0;
    for i := 0 to |nodes|
      invariant eligible == Count(nodes[..i], false) && unexcluded == Count(nodes[..i], true)
    {
      assert nodes[..i + 1][..i] == nodes[..i];
      if nodes[i].eligible && IsWifiin(nodes[i].provider) {
        eligible := eligible + 1;
        if !nodes[i].excluded {
          unexcluded := unexcluded + 1;
        }
      }
    }
    assert nodes[..|nodes|] == nodes;
    if eligible == 0 {
      return false;
    }
    var lines := Split(text.value[..|text.value| - 1], '\n');
    if |lines| != eligible && |lines| != unexcluded {
      return false;
    }
    for i := 0 to |lines|
      invariant forall j | 0 <= j < i :: ValidLine(p, lines[j])
    {
      assert lines[i] in lines;
      var valid := ValidateLine(p, lines[i]);
      if !valid {
        return false;
      }
    }
    return true;
  }

  method ValidateLine(p: Platform, line: string) returns (ok: bool)
    ensures ok <==> ValidLine(p, line)
  {
    if line == "" || '\r' in line {
      return false;
    }
    var parsed := p.parseLink(line);
    if parsed.None? {
      return false;
    }
    var link := parsed.value;
    if link.text != line || link.scheme != "socks5" || link.opaqueness != "" || link.host == "" || link.path != ""
        || link.query != "" {
      return false;
    }
    if !link.hasUser || link.username == "" || link.password.None? {
      return false;
    }
    return link.password.value != "";
  }

  // ---------- the stored session as the program checks it ----------

  method ValidateProviderField(s: string) returns (ok: bool)
    ensures ok <==> ProviderField(s)
  {
    if |s| == 0 || |s| > MAX_SESSION_FIELD {
      return false;
    }
    for i := 0 to |s|
      invariant forall j | 0 <= j < i :: 33 as char <= s[j] <= 126 as char && s[j] != '|'
    {
      assert s[i] in s;
      if s[i] < 33 as char || s[i] > 126 as char || s[i] == '|' {
        return false;
      }
    }
    return true;
  }

  method ValidateExtension(identity: (string, string, string), extension: string) returns (ok: bool)
    ensures ok <==> ExtensionFor(identity, extension)
  {
    if |extension| == 0 || |extension| > MAX_EXTENSION {
      return false;
    }
    var parts := Split(extension, '|');
    if |parts| != 7 || parts[0] != "" {
      return false;
    }
    var (product, system, version) := identity;
    if parts[2] != product || parts[5] != system || parts[6] != version {
      return false;
    }
    var first := ValidateProviderField(parts[1]);
    var second := ValidateProviderField(parts[3]);
    var third := ValidateProviderField(parts[4]);
    return first && second && third;
  }

  method ValidateProviderSession(identity: (string, string, string), s: SessionSecrets) returns (ok: bool)
    ensures ok <==> PersistableSession(identity, s)
  {
    if !s.Valid() || s.tunnelMethod != "aes-256-cfb" {
      return false;
    }
    var extension := ValidateExtension(identity, s.extension);
    if !extension {
      return false;
    }
    var parts := Split(s.extension, '|');
    return parts[1] == s.providerToken && parts[4] == s.userID;
  }

  method ValidateSessions(s: ClientSessions) returns (ok: bool)
    ensures ok <==> PersistableSessions(s)
  {
    ok := ValidateProviderSession(("cc.fancast.major", "MAC", "1.0.46"), s.ios);
    if ok && s.windows != NO_SESSION {
      ok := ValidateProviderSession(("com.wifiin.sdk.invpn.win", "WINDOWS", "4.3.30"), s.windows);
    }
  }

  method ValidateState(p: Platform, s: PersistentState, now: Time) returns (ok: bool)
    ensures ok <==> StateValid(p, s, now)
  {
    var generation := ValidateGeneration(s.subscription);
    if (s.verifier.Some? && |s.verifier.value| != KEY_SIZE) || !generation
       || (|s.subscription.binding| != 0 && s.verifier.None?) {
      return false;
    }
    if |s.subscription.binding| == 0 {
      if s.lastGood != EMPTY_LAST_GOOD || s.active.Some? {
        return false;
      }
    } else if s.lastGood != EMPTY_LAST_GOOD {
      var lg := s.lastGood;
      if lg.generation != s.subscription.number || lg.createdAt == UNSET || lg.nodes == [] || lg.body == "" {
        return false;
      }
      if |lg.fetchedHash| != 0 && |lg.fetchedHash| != KEY_SIZE {
        return false;
      }
      var hasFetch := lg.fetchedAt != UNSET;
      if hasFetch != (|lg.fetchedHash| == KEY_SIZE) || hasFetch != (lg.fetchedGeneration != 0)
         || (hasFetch && (lg.fetchedGeneration > lg.generation || lg.fetchedAt < lg.createdAt)) {
        return false;
      }
      var nodesOk := ValidateNodes(lg.nodes);
      if !nodesOk {
        return false;
      }
      var bodyOk := ValidateBody(p, lg.body, lg.nodes);
      if !bodyOk {
        return false;
      }
    }
    if s.active.Some? {
      var active := s.active.value;
      var snapshotOk := ValidateRuntimeSnapshot(active, now);
      var sessionsOk := ValidateSessions(active.sessions);
      if !snapshotOk || !sessionsOk || s.verifier.None? {
        return false;
      }
      var bound := MatchAccount(p, s.subscription.binding, s.verifier.value, active.sessions.UserID());
      if !bound {
        return false;
      }
      var rest := active.selectors.Keys;
      while rest != {}
        invariant rest <= active.selectors.Keys
        invariant forall name | name in active.selectors && name !in rest ::
                    active.selectors[name].generation == s.subscription.number
      {
        var name :| name in rest;
        if active.selectors[name].generation != s.subscription.number {
          return false;
        }
        rest := rest - {name};
      }
    }
    return true;
  }

  // Derive the links of the stored nodes; fails where a derivation fails.
  method LinksOf(p: Platform, g: SubscriptionGeneration, nodes: seq<PersistedNode>, legacy: bool)
    returns (links: Option<seq<Link>>)
    ensures links.Some? ==> links.value == PersistedLinks(p, g, nodes, legacy)
    ensures links.Some? <==> forall n | n in nodes :: DeriveNode(p, g, n.id, n.provider, n.host, n.port).Ok?
  {
    var built: seq<Link> := [];
    for i := 0 to |nodes|
      invariant built == PersistedLinks(p, g, nodes, legacy)[..i]
      invariant forall j | 0 <= j < i ::
                  DeriveNode(p, g, nodes[j].id, nodes[j].provider, nodes[j].host, nodes[j].port).Ok?
    {
      assert nodes[i] in nodes;
      var n := nodes[i];
      var pair := DeriveCredentials(p, n.id, n.provider, n.host, n.port, g.selectorKey, g.proxyKey);
      if pair.Err? {
        return None;
      }
      var eligible := n.eligible && IsWifiin(n.provider) && n.host != "" && n.port != 0;
      if legacy && n.excluded {
        eligible := false;
      }
      built := built + [Link(pair.value.selector, pair.value.password, n.name, n.group, eligible)];
    }
    return Some(built);
  }

  method RenderPersisted(p: Platform, g: SubscriptionGeneration, nodes: seq<PersistedNode>, address: string,
                         legacy: bool) returns (body: Option<string>)
    ensures body.Some? ==> forall n | n in nodes :: DeriveNode(p, g, n.id, n.provider, n.host, n.port).Ok?
    ensures (forall n | n in nodes :: DeriveNode(p, g, n.id, n.provider, n.host, n.port).Ok?) ==>
              forall b: string :: body == Some(b) <==> RendersAs(p, PersistedLinks(p, g, nodes, legacy), address, b)
  {
    var links := LinksOf(p, g, nodes, legacy);
    if links.None? {
      return None;
    }
    PersistedLinksCoherent(p, g, nodes, legacy);
    var r := Render(p, links.value, address);
    return if r.Ok? then Some(r.value.0) else None;
  }

  // The address of the first line, if the body is a text in the encoder's form.
  method ShownAddress(p: Platform, body: string) returns (address: Option<string>)
    ensures address == BodyAddress(p, body)
  {
    var text := p.decode(body);
    if text.None? || p.encode(text.value) != body {
      return None;
    }
    if text.value == "" || text.value[|text.value| - 1] != '\n' {
      return None;
    }
    var lines := Split(text.value[..|text.value| - 1], '\n');
    var parsed := p.parseLink(lines[0]);
    if parsed.None? {
      return None;
    }
    var link := parsed.value;
    if link.scheme != "socks5" || !link.hasUser || link.host == "" || link.query != "" {
      return None;
    }
    return if p.hostPort(link.host).Some? then Some(link.host) else None;
  }

  ghost predicate DistinctStored(nodes: seq<PersistedNode>) {
    forall i, j | 0 <= i < j < |nodes| :: nodes[i].id != nodes[j].id
  }

  // Index the stored nodes by identifier.
  method IndexStored(nodes: seq<PersistedNode>) returns (stored: map<string, PersistedNode>)
    requires DistinctStored(nodes)
    ensures forall n: PersistedNode :: n in nodes <==> n.id in stored && stored[n.id] == n
    ensures forall id | id in stored :: stored[id].id == id
  {
    stored := map[];
    for i := 0 to |nodes|
      invariant forall j | 0 <= j < i :: nodes[j].id in stored && stored[nodes[j].id] == nodes[j]
      invariant forall id | id in stored :: stored[id] in nodes[..i] && stored[id].id == id
    {
      assert nodes[..i + 1] == nodes[..i] + [nodes[i]];
      stored := stored[nodes[i].id := nodes[i]];
    }
    assert nodes[..|nodes|] == nodes;
  }

  // Every live reference is the reference of some node.
  method ValidateReferences(nodes: seq<Node>, selectors: Selectors, live: set<string>) returns (ok: bool)
    requires live == set n | n in nodes :: n.selector
    ensures ok <==> forall name | name in selectors && !selectors[name].tombstoned ::
              exists n :: n in nodes && n.selector == name
  {
    var rest := selectors.Keys;
    while rest != {}
      invariant rest <= selectors.Keys
      invariant forall name | name in selectors && name !in rest && !selectors[name].tombstoned :: name in live
    {
      var name :| name in rest;
      if !selectors[name].tombstoned && name !in live {
        return false;
      }
      rest := rest - {name};
    }
    return true;
  }

  method ValidateActiveNode(p: Platform, s: PersistentState, selectors: Selectors, stored: map<string, PersistedNode>,
                            n: Node) returns (ok: bool)
    requires forall m: PersistedNode :: m in s.lastGood.nodes <==> m.id in stored && stored[m.id] == m
    requires forall id | id in stored :: stored[id].id == id
    ensures ok <==> ActiveNodeMatches(p, s, selectors, n)
  {
    if n.id !in stored {
      return false;
    }
    var m := stored[n.id];
    if n.selector != m.selector || n.provider != m.provider || n.host != m.host || n.port != m.port || n.name != m.name
        || n.group != m.group || n.eligible != m.eligible || n.excluded != m.excluded {
      return false;
    }
    var pair := DeriveCredentials(p, n.id, n.provider, n.host, n.port, s.subscription.selectorKey,
                                  s.subscription.proxyKey);
    if pair.Err? || pair.value.selector != n.selector || n.selector !in selectors {
      return false;
    }
    var ref := selectors[n.selector];
    return !ref.tombstoned && ref.nodeID == n.id && ref.generation == s.subscription.number;
  }

  method ValidateActive(p: Platform, s: PersistentState, active: RuntimeSnapshot) returns (ok: bool)
    requires DistinctStored(s.lastGood.nodes)
    ensures ok <==> ActiveMatches(p, s, active)
  {
    if s.lastGood.body == "" || s.lastGood.generation != s.subscription.number || |active.nodes| != |s.lastGood.nodes| {
      return false;
    }
    var stored := IndexStored(s.lastGood.nodes);
    var matched, live := ValidateActiveNodes(p, s, active.selectors, stored, active.nodes);
    if !matched {
      return false;
    }
    ok := ValidateReferences(active.nodes, active.selectors, live);
  }

  // The loop over the active nodes, collecting their selectors.
  lemma OneSelectorMore(nodes: seq<Node>, i: nat)
    requires i < |nodes|
    ensures (set n | n in nodes[..i + 1] :: n.selector) == (set n | n in nodes[..i] :: n.selector) + {nodes[i].selector}
  {
    assert nodes[..i + 1] == nodes[..i] + [nodes[i]];
  }

  method ValidateActiveNodes(p: Platform, s: PersistentState, selectors: Selectors, stored: map<string, PersistedNode>,
                             nodes: seq<Node>)
    returns (ok: bool, live: set<string>)
    requires forall m: PersistedNode :: m in s.lastGood.nodes <==> m.id in stored && stored[m.id] == m
    requires forall id | id in stored :: stored[id].id == id
    ensures ok <==> forall n | n in nodes :: ActiveNodeMatches(p, s, selectors, n)
    ensures ok ==> live == set n | n in nodes :: n.selector
  {
    live := {};
    for i := 0 to |nodes|
      invariant forall j | 0 <= j < i :: ActiveNodeMatches(p, s, selectors, nodes[j])
      invariant live == set n | n in nodes[..i] :: n.selector
    {
      ok := ValidateActiveNode(p, s, selectors, stored, nodes[i]);
      if !ok {
        assert nodes[i] in nodes;
        return;
      }
      OneSelectorMore(nodes, i);
      live := live + {nodes[i].selector};
    }
    assert nodes[..|nodes|] == nodes;
    ok := true;
  }

  method ValidateAggregate(p: Platform, s: PersistentState, now: Time) returns (ok: bool)
    ensures ok <==> AggregateValid(p, s, now)
  {
    var structural := ValidateState(p, s, now);
    if !structural {
      return false;
    }
    if s.lastGood.body == "" {
      if s.lastGood != EMPTY_LAST_GOOD {
        return false;
      }
    } else {
      if |s.subscription.binding| != KEY_SIZE || s.lastGood.generation != s.subscription.number {
        return false;
      }
      var address := ShownAddress(p, s.lastGood.body);
      if address.None? {
        return false;
      }
      for i := 0 to |s.lastGood.nodes|
        invariant forall j | 0 <= j < i :: Derived(p, s.subscription, s.lastGood.nodes[j])
      {
        var n := s.lastGood.nodes[i];
        assert n in s.lastGood.nodes;
        var pair := DeriveCredentials(p, n.id, n.provider, n.host, n.port, s.subscription.selectorKey,
                                      s.subscription.proxyKey);
        if pair.Err? || pair.value.selector != n.selector {
          assert !Derived(p, s.subscription, n);
          return false;
        }
      }
      var rendered := RenderPersisted(p, s.subscription, s.lastGood.nodes, address.value, false);
      if rendered != Some(s.lastGood.body) {
        var legacy := RenderPersisted(p, s.subscription, s.lastGood.nodes, address.value, true);
        if legacy != Some(s.lastGood.body) {
          return false;
        }
      }
    }
    if s.active.Some? {
      ok := ValidateActive(p, s, s.active.value);
      return ok;
    }
    return true;
  }

  method ValidateServed(p: Platform, s: PersistentState, now: Time, address: string) returns (ok: bool)
    ensures ok <==> ServedValid(p, s, now, address)
  {
    var aggregate := ValidateAggregate(p, s, now);
    if !aggregate {
      return false;
    }
    if s.lastGood.body == "" {
      return true;
    }
    var rendered := RenderPersisted(p, s.subscription, s.lastGood.nodes, address, false);
    return rendered == Some(s.lastGood.body);
  }
}
