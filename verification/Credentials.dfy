/**
 Per-node SOCKS credentials and the selector view of one credential generation
 (internal/selector/credentials.go).
 */
module Credentials {
  import opened Foundations
  import opened StateTypes
  import opened Platform

  const GRACE: nat := DAY
  const MAX_LIVE: nat := 4096
  const MAX_TOMBSTONES: nat := 8192
  const MAX_PREVIOUS: nat := 2 * (MAX_LIVE + MAX_TOMBSTONES)

  datatype BuildError =
    | InvalidIdentity | InvalidKey | UnknownGeneration | DuplicateNode | TooManyNodes | TooManySelectors

  // ---------- canonical identities ----------

  predicate PrintableProvider(provider: string) {
    provider != "" && forall c | c in provider :: ' ' < c < 127 as char
  }

  function CanonicalProvider(provider: string): Option<string> {
    if PrintableProvider(provider) then Some(Upper(provider)) else None
  }

  method FoldProvider(provider: string) returns (r: Option<string>)
    ensures r == CanonicalProvider(provider)
  {
    if provider == "" {
      return None;
    }
    var built := "";
    for i := 0 to |provider|
      invariant PrintableProvider(provider[..i]) || i == 0
      invariant built == Upper(provider[..i])
    {
      var c := provider[i];
      if c >= 127 as char || c <= ' ' {
        assert c in provider;
        return None;
      }
      assert provider[..i + 1] == provider[..i] + [c];
      built := built + [UpperByte(c)];
    }
    assert provider[..|provider|] == provider;
    return Some(built);
  }

  function Canonicalize(p: Platform, id: string, provider: string, host: string, port: int): Result<CanonicalIdentity,
      BuildError> {
    if |id| > 256 || NUL in id then Err(InvalidIdentity)
    else
      var folded := CanonicalProvider(provider);
      if folded.None? then Err(InvalidIdentity)
      else
        var h := p.hostForm(host);
        if h.None? || port < 1 || port > 65535 then Err(InvalidIdentity)
        else Ok(CanonicalIdentity(id, folded.value, h.value, port))
  }

  // The same as the program computes it.
  method CanonicalIdentityOf(p: Platform, id: string, provider: string, host: string, port: int)
    returns (r: Result<CanonicalIdentity, BuildError>)
    ensures r == Canonicalize(p, id, provider, host, port)
  {
    if |id| > 256 || NUL in id {
      return Err(InvalidIdentity);
    }
    var folded := FoldProvider(provider);
    if folded.None? {
      return Err(InvalidIdentity);
    }
    var canonical := p.hostForm(host);
    if canonical.None? {
      return Err(InvalidIdentity);
    }
    if port < 1 || port > 65535 {
      return Err(InvalidIdentity);
    }
    return Ok(CanonicalIdentity(id, folded.value, canonical.value, port));
  }

  lemma UpperIdempotent(s: string)
    ensures Upper(Upper(s)) == Upper(s)
    ensures PrintableProvider(s) ==> PrintableProvider(Upper(s))
  {
    forall i | 0 <= i < |s|
      ensures UpperByte(Upper(s)[i]) == Upper(s)[i]
      ensures PrintableProvider(s) ==> ' ' < Upper(s)[i] < 127 as char
    {
      assert s[i] in s;
    }
  }

  // Canonicalising a canonical identity changes nothing.
  lemma CanonicalizeIdempotent(p: Platform, id: string, provider: string, host: string, port: int)
    requires LawfulHosts(p)
    requires Canonicalize(p, id, provider, host, port).Ok?
    ensures var c := Canonicalize(p, id, provider, host, port).value;
            && Canonicalize(p, c.nodeID, c.provider, c.host, c.port) == Ok(c)
            && c.provider != "" && c.host != "" && NUL !in c.provider && NUL !in c.host
  {
    UpperIdempotent(provider);
    var c := Canonicalize(p, id, provider, host, port).value;
    assert p.hostForm(host).Some?;
    assert PrintableProvider(c.provider);
    assert forall x | x in c.provider :: x > ' ';
  }

  // ---------- credentials ----------

  datatype Pair = Pair(selector: string, password: string)

  // The text that the selector hash covers.
  function Fingerprint(identity: CanonicalIdentity): string {
    "credential" + [NUL]
    + (identity.nodeID + [NUL] + (identity.provider + [NUL] + (identity.host + [NUL] + Decimal(identity.port))))
  }

  predicate Separable(identity: CanonicalIdentity) {
    NUL !in identity.nodeID && NUL !in identity.provider && NUL !in identity.host
  }

  // No two identities share it.
  lemma FingerprintTells(a: CanonicalIdentity, b: CanonicalIdentity)
    requires Separable(a) && Separable(b) && Fingerprint(a) == Fingerprint(b)
    ensures a == b
  {
    var (x3, y3) := (a.host + [NUL] + Decimal(a.port), b.host + [NUL] + Decimal(b.port));
    var (x2, y2) := (a.provider + [NUL] + x3, b.provider + [NUL] + y3);
    var (x1, y1) := (a.nodeID + [NUL] + x2, b.nodeID + [NUL] + y2);
    FirstPiece("credential", x1, "credential", y1, NUL);
    FirstPiece(a.nodeID, x2, b.nodeID, y2, NUL);
    FirstPiece(a.provider, x3, b.provider, y3, NUL);
    FirstPiece(a.host, Decimal(a.port), b.host, Decimal(b.port), NUL);
    DecimalBack(a.port);
    DecimalBack(b.port);
  }

  // So no two nodes with different canonical identities share their hash input.
  lemma CanonicalTells(p: Platform, x: Node, y: Node)
    requires LawfulHosts(p)
    requires Canonicalize(p, x.id, x.provider, x.host, x.port).Ok?
             && Canonicalize(p, y.id, y.provider, y.host, y.port).Ok?
    ensures var a := Canonicalize(p, x.id, x.provider, x.host, x.port).value;
            var b := Canonicalize(p, y.id, y.provider, y.host, y.port).value;
            Fingerprint(a) == Fingerprint(b) <==> a == b
  {
    CanonicalizeIdempotent(p, x.id, x.provider, x.host, x.port);
    CanonicalizeIdempotent(p, y.id, y.provider, y.host, y.port);
    var a := Canonicalize(p, x.id, x.provider, x.host, x.port).value;
    var b := Canonicalize(p, y.id, y.provider, y.host, y.port).value;
    if Fingerprint(a) == Fingerprint(b) {
      FingerprintTells(a, b);
    }
  }

  function SelectorName(p: Platform, selectorKey: Key, identity: CanonicalIdentity): string {
    "n_" + p.selectorTag(selectorKey, Fingerprint(identity))
  }

  function PasswordFor(p: Platform, proxyKey: Key, selector: string): string {
    "p_" + p.passwordTag(proxyKey, selector)
  }

  function DeriveCanonical(p: Platform, identity: CanonicalIdentity, selectorKey: Key, proxyKey: Key): Result<Pair,
      BuildError> {
    if identity.nodeID == "" then Err(InvalidIdentity)
    else if |selectorKey| != KEY_SIZE || |proxyKey| != KEY_SIZE then Err(InvalidKey)
    else
      var selector := SelectorName(p, selectorKey, identity);
      Ok(Pair(selector, PasswordFor(p, proxyKey, selector)))
  }

  function Derive(p: Platform, id: string, provider: string, host: string, port: int, selectorKey: Key,
                  proxyKey: Key): Result<Pair, BuildError> {
    var identity := Canonicalize(p, id, provider, host, port);
    if identity.Err? then Err(identity.error) else DeriveCanonical(p, identity.value, selectorKey, proxyKey)
  }

  // Both as the program computes them.
  method CredentialsOf(p: Platform, identity: CanonicalIdentity, selectorKey: Key, proxyKey: Key)
    returns (r: Result<Pair, BuildError>)
    ensures r == DeriveCanonical(p, identity, selectorKey, proxyKey)
  {
    if identity.nodeID == "" {
      return Err(InvalidIdentity);
    }
    if |selectorKey| != KEY_SIZE || |proxyKey| != KEY_SIZE {
      return Err(InvalidKey);
    }
    var text := "credential" + [NUL]
        + (identity.nodeID + [NUL] + (identity.provider + [NUL] + (identity.host + [NUL] + Decimal(identity.port))));
    var selector := "n_" + p.selectorTag(selectorKey, text);
    var password := "p_" + p.passwordTag(proxyKey, selector);
    return Ok(Pair(selector, password));
  }

  method DeriveCredentials(p: Platform, id: string, provider: string, host: string, port: int, selectorKey: Key,
                           proxyKey: Key)
    returns (r: Result<Pair, BuildError>)
    ensures r == Derive(p, id, provider, host, port, selectorKey, proxyKey)
  {
    var identity := CanonicalIdentityOf(p, id, provider, host, port);
    if identity.Err? {
      return Err(identity.error);
    }
    r := CredentialsOf(p, identity.value, selectorKey, proxyKey);
  }

  predicate ValidSelector(s: string) {
    |s| == 18 && s[..2] == "n_" && Base64Url(s[2..])
  }

  predicate ValidPassword(s: string) {
    |s| == 26 && s[..2] == "p_" && Base64Url(s[2..])
  }

  // One credential generation. The number id stands for the identity of the
  // pointer: every constructed registry gets a new one.
  datatype Registry = Registry(id: nat, generation: nat, selectorKey: Key, proxyKey: Key) {
    predicate Serves(want: nat) {
      want == 0 || generation == want
    }

    predicate Holds(g: SubscriptionGeneration) {
      generation == g.number && selectorKey == g.selectorKey && proxyKey == g.proxyKey
    }

    function Authenticate(p: Platform, selector: string, password: string): Option<nat> {
      if !ValidSelector(selector) || !ValidPassword(password) then None
      else if password == PasswordFor(p, proxyKey, selector) then Some(generation)
      else None
    }
  }

  function NewRegistry(id: nat, g: SubscriptionGeneration): Option<Registry> {
    if g.number == 0 || |g.selectorKey| != KEY_SIZE || |g.proxyKey| != KEY_SIZE then None
    else Some(Registry(id, g.number, g.selectorKey, g.proxyKey))
  }

  method MakeRegistry(id: nat, g: SubscriptionGeneration) returns (r: Option<Registry>)
    ensures r == NewRegistry(id, g)
  {
    if g.number == 0 {
      return None;
    }
    if |g.selectorKey| != KEY_SIZE || |g.proxyKey| != KEY_SIZE {
      return None;
    }
    return Some(Registry(id, g.number, g.selectorKey, g.proxyKey));
  }

  // What is accepted, for any pair of texts.
  lemma AuthenticatesExactly(p: Platform, reg: Registry, selector: string, password: string)
    requires LawfulTags(p)
    ensures reg.Authenticate(p, selector, password).Some? <==>
              && |selector| == 18 && selector[0] == 'n' && selector[1] == '_'
              && (forall i | 2 <= i < 18 :: selector[i] in URL_ALPHABET)
              && password == "p_" + p.passwordTag(reg.proxyKey, selector)
    ensures reg.Authenticate(p, selector, password).Some? ==>
              reg.Authenticate(p, selector, password).value == reg.generation
  {
    if |selector| == 18 {
      assert selector[..2] == [selector[0], selector[1]];
      Base64UrlExactly(selector[2..]);
      assert forall i | 2 <= i < 18 :: selector[i] == selector[2..][i - 2];
      assert forall c | c in selector[2..] :: exists i :: 2 <= i < 18 && selector[i] == c;
    }
    var expected := PasswordFor(p, reg.proxyKey, selector);
    assert expected[..2] == "p_" && expected[2..] == p.passwordTag(reg.proxyKey, selector);
  }

  // Issued credentials are exactly the accepted ones: a derived pair passes, and
  // no other password passes with the same selector.
  lemma DerivedCredentialsAuthenticate(p: Platform, reg: Registry, identity: CanonicalIdentity, password: string)
    requires LawfulTags(p)
    requires DeriveCanonical(p, identity, reg.selectorKey, reg.proxyKey).Ok?
    ensures var pair := DeriveCanonical(p, identity, reg.selectorKey, reg.proxyKey).value;
            reg.Authenticate(p, pair.selector, password) == (if password == pair.password then Some(reg.generation)
                                                             else None)
  {
    var pair := DeriveCanonical(p, identity, reg.selectorKey, reg.proxyKey).value;
    assert pair.selector[..2] == "n_" && pair.selector[2..] == p.selectorTag(reg.selectorKey, Fingerprint(identity));
    assert pair.password[..2] == "p_" && pair.password[2..] == p.passwordTag(reg.proxyKey, pair.selector);
  }

  // ---------- what a build has to produce ----------

  datatype BuildResult = BuildResult(nodes: seq<Node>, selectors: Selectors)

  // The canonical form of a node under a registry, with its derived selector.
  function Refine(p: Platform, reg: Registry, node: Node): Result<Node, BuildError> {
    match Canonicalize(p, node.id, node.provider, node.host, node.port)
    case Err(e) => Err(e)
    case Ok(c) =>
      match DeriveCanonical(p, c, reg.selectorKey, reg.proxyKey)
      case Err(e) => Err(e)
      case Ok(pair) => Ok(node.(provider := c.provider, host := c.host, port := c.port, selector := pair.selector))
  }

  // A refined node is its source but for three fields: the host in canonical form,
  // the provider in capital letters, and the selector of the identity they make.
  ghost predicate BuiltFrom(p: Platform, selectorKey: Key, source: Node, n: Node) {
    && n == source.(provider := n.provider, host := n.host, selector := n.selector)
    && p.hostForm(source.host) == Some(n.host) && UpperCaseOf(source.provider, n.provider)
    && n.selector == "n_" + p.selectorTag(selectorKey, Fingerprint(CanonicalIdentity(n.id, n.provider, n.host, n.port)))
  }

  lemma RefinedFrom(p: Platform, reg: Registry, node: Node, n: Node)
    ensures Refine(p, reg, node) == Ok(n) <==>
              && BuiltFrom(p, reg.selectorKey, node, n)
              && 0 < |node.id| <= 256 && NUL !in node.id && 1 <= node.port <= 65535
              && node.provider != "" && (forall c | c in node.provider :: 33 as char <= c <= 126 as char)
              && |reg.selectorKey| == 32 && |reg.proxyKey| == 32
  {
    UpperExactly(node.provider, n.provider);
  }

  lemma RefineIdempotent(p: Platform, reg: Registry, node: Node)
    requires LawfulHosts(p) && Refine(p, reg, node).Ok?
    ensures Refine(p, reg, Refine(p, reg, node).value) == Refine(p, reg, node)
    ensures Refine(p, reg, node).value.Valid()
  {
    CanonicalizeIdempotent(p, node.id, node.provider, node.host, node.port);
  }

  ghost predicate EarlierId(nodes: seq<Node>, i: nat)
    requires i < |nodes|
  {
    exists j | 0 <= j < i :: nodes[j].id == nodes[i].id
  }

  ghost predicate EarlierSelector(p: Platform, reg: Registry, nodes: seq<Node>, i: nat, selector: string)
    requires i < |nodes|
  {
    exists j | 0 <= j < i :: Refine(p, reg, nodes[j]).Ok? && Refine(p, reg, nodes[j]).value.selector == selector
  }

  // Why node i is refused, given the nodes before it.
  ghost function NodeProblem(p: Platform, reg: Registry, nodes: seq<Node>, i: nat): Option<BuildError>
    requires i < |nodes|
  {
    if nodes[i].id == "" || EarlierId(nodes, i) then Some(DuplicateNode)
    else
      match Refine(p, reg, nodes[i])
      case Err(e) => Some(e)
      case Ok(n) => if EarlierSelector(p, reg, nodes, i, n.selector) then Some(DuplicateNode) else None
  }

  ghost function FirstProblem(p: Platform, reg: Registry, nodes: seq<Node>, i: nat): Option<BuildError>
    requires i <= |nodes|
    decreases |nodes| - i
  {
    if i == |nodes| then None
    else if NodeProblem(p, reg, nodes, i).Some? then NodeProblem(p, reg, nodes, i)
    else FirstProblem(p, reg, nodes, i + 1)
  }

  ghost function BuildProblem(p: Platform, reg: Registry, want: nat, nodes: seq<Node>,
                              previous: Selectors): Option<BuildError> {
    if !reg.Serves(want) then Some(UnknownGeneration)
    else if |nodes| > MAX_LIVE then Some(TooManyNodes)
    else if |previous| > MAX_PREVIOUS then Some(TooManySelectors)
    else FirstProblem(p, reg, nodes, 0)
  }

  lemma {:induction false} NoProblem(p: Platform, reg: Registry, nodes: seq<Node>, i: nat, k: nat)
    requires i <= k < |nodes|
    requires FirstProblem(p, reg, nodes, i).None?
    ensures NodeProblem(p, reg, nodes, k).None?
    decreases k - i
  {
    if i < k {
      NoProblem(p, reg, nodes, i + 1, k);
    }
  }

  lemma {:induction false} ProblemFree(p: Platform, reg: Registry, nodes: seq<Node>, i: nat)
    requires i <= |nodes|
    requires forall k | i <= k < |nodes| :: NodeProblem(p, reg, nodes, k).None?
    ensures FirstProblem(p, reg, nodes, i).None?
    decreases |nodes| - i
  {
    if i < |nodes| {
      ProblemFree(p, reg, nodes, i + 1);
    }
  }

  function Chosen(p: Platform, reg: Registry, node: Node): Node {
    if Refine(p, reg, node).Ok? then Refine(p, reg, node).value else node
  }

  function Selected(p: Platform, reg: Registry, nodes: seq<Node>): seq<Node> {
    seq(|nodes|, i requires 0 <= i < |nodes| => Chosen(p, reg, nodes[i]))
  }

  ghost predicate Borne(selected: seq<Node>, name: string, id: string) {
    exists n | n in selected :: n.selector == name && n.id == id
  }

  // A previous reference that has to be refused from now on: a tombstone still
  // running, or a live name that its node no longer bears.
  ghost predicate Dead(selected: seq<Node>, previous: Selectors, want: nat, now: Time, name: string) {
    && name in previous && previous[name].generation == want
    && if previous[name].tombstoned then previous[name].IsTombstoned(now)
       else !Borne(selected, name, previous[name].nodeID)
  }

  ghost function Deadline(previous: Selectors, now: Time, name: string): Time
    requires name in previous
  {
    if previous[name].tombstoned then previous[name].until else now + GRACE
  }

  ghost function Entombed(selected: seq<Node>, previous: Selectors, want: nat, now: Time): map<string, Time> {
    map name | name in previous && Dead(selected, previous, want, now, name) :: Deadline(previous, now, name)
  }

  ghost function Survivors(selected: seq<Node>, dead: map<string, Time>): seq<Node> {
    if selected == [] then []
    else if selected[|selected| - 1].selector in dead then Survivors(selected[..|selected| - 1], dead)
    else Survivors(selected[..|selected| - 1], dead) + [selected[|selected| - 1]]
  }

  predicate Earlier(t1: Time, s1: string, t2: Time, s2: string) {
    t1 < t2 || (t1 == t2 && StringLess(s1, s2))
  }

  // The kept names are the greatest MAX_TOMBSTONES by deadline, then by name.
  ghost predicate Greatest(dead: map<string, Time>, kept: set<string>) {
    && kept <= dead.Keys
    && |kept| == (if |dead| <= MAX_TOMBSTONES then |dead| else MAX_TOMBSTONES)
    && forall k, d | k in kept && d in dead.Keys - kept :: Earlier(dead[d], d, dead[k], k)
  }

  function LiveRef(n: Node, want: nat): NodeRef {
    NodeRef(n.id, want, false, UNSET)
  }

  function DeadRef(want: nat, until: Time): NodeRef {
    NodeRef("", want, true, until)
  }

  ghost function Tombstones(selectors: Selectors): set<string> {
    set name | name in selectors && selectors[name].tombstoned
  }

  // A view with the given nodes, a live reference for each, and kept tombstones.
  ghost predicate IsView(r: BuildResult, dead: map<string, Time>, want: nat) {
    && (forall n | n in r.nodes :: n.selector in r.selectors && r.selectors[n.selector] == LiveRef(n, want))
    && (forall name | name in r.selectors && !r.selectors[name].tombstoned ::
          exists n :: n in r.nodes && n.selector == name)
    && (forall name | name in Tombstones(r.selectors) :: name in dead && r.selectors[name] == DeadRef(want, dead[name]))
    && Greatest(dead, Tombstones(r.selectors))
  }

  ghost predicate IsBuild(p: Platform, reg: Registry, want: nat, nodes: seq<Node>, previous: Selectors, now: Time,
                          r: BuildResult) {
    var selected := Selected(p, reg, nodes);
    var dead := Entombed(selected, previous, want, now);
    && BuildProblem(p, reg, want, nodes, previous).None?
    && r.nodes == Survivors(selected, dead)
    && IsView(r, dead, want)
  }

  // ---------- survivors ----------

  lemma {:induction false} SurvivorsExactly(selected: seq<Node>, dead: map<string, Time>)
    ensures forall n :: n in Survivors(selected, dead) <==> n in selected && n.selector !in dead
    ensures |Survivors(selected, dead)| <= |selected|
  {
    if selected != [] {
      var front := selected[..|selected| - 1];
      SurvivorsExactly(front, dead);
      assert selected == front + [selected[|selected| - 1]];
    }
  }

  lemma SurvivorsFrom(p: Platform, reg: Registry, nodes: seq<Node>, dead: map<string, Time>)
    requires FirstProblem(p, reg, nodes, 0).None?
    ensures BuiltOf(p, reg, nodes, Survivors(Selected(p, reg, nodes), dead))
  {
    SelectedFrom(p, reg, nodes);
    SurvivorsExactly(Selected(p, reg, nodes), dead);
  }

  ghost predicate DistinctSelectors(nodes: seq<Node>) {
    forall i, j | 0 <= i < j < |nodes| :: nodes[i].selector != nodes[j].selector
  }

  lemma {:induction false} SurvivorsDistinct(selected: seq<Node>, dead: map<string, Time>)
    requires DistinctIds(selected) && DistinctSelectors(selected)
    ensures DistinctIds(Survivors(selected, dead)) && DistinctSelectors(Survivors(selected, dead))
  {
    if selected != [] {
      var front := selected[..|selected| - 1];
      SurvivorsDistinct(front, dead);
      SurvivorsExactly(front, dead);
      assert forall n | n in front ::
               n.id != selected[|selected| - 1].id && n.selector != selected[|selected| - 1].selector;
    }
  }

  // Every node of a build comes from one of the list.
  ghost predicate BuiltOf(p: Platform, reg: Registry, nodes: seq<Node>, built: seq<Node>) {
    forall n | n in built :: exists i :: 0 <= i < |nodes| && BuiltFrom(p, reg.selectorKey, nodes[i], n)
  }

  lemma SelectedFrom(p: Platform, reg: Registry, nodes: seq<Node>)
    requires FirstProblem(p, reg, nodes, 0).None?
    ensures BuiltOf(p, reg, nodes, Selected(p, reg, nodes))
    ensures forall i | 0 <= i < |nodes| :: BuiltFrom(p, reg.selectorKey, nodes[i], Selected(p, reg, nodes)[i])
  {
    forall i | 0 <= i < |nodes|
      ensures BuiltFrom(p, reg.selectorKey, nodes[i], Selected(p, reg, nodes)[i])
    {
      NoProblem(p, reg, nodes, 0, i);
      RefinedFrom(p, reg, nodes[i], Selected(p, reg, nodes)[i]);
    }
  }

  // A problem-free list refines to nodes with distinct identifiers and selectors.
  lemma SelectedDistinct(p: Platform, reg: Registry, nodes: seq<Node>)
    requires FirstProblem(p, reg, nodes, 0).None?
    ensures DistinctIds(nodes)
    ensures DistinctIds(Selected(p, reg, nodes)) && DistinctSelectors(Selected(p, reg, nodes))
    ensures forall i | 0 <= i < |nodes| :: nodes[i].id != "" && Refine(p, reg, nodes[i]).Ok?
    ensures forall n | n in Selected(p, reg, nodes) :: n.id != ""
  {
    var selected := Selected(p, reg, nodes);
    forall i | 0 <= i < |nodes|
      ensures nodes[i].id != "" && Refine(p, reg, nodes[i]) == Ok(selected[i]) && selected[i].id == nodes[i].id
    {
      CleanNode(p, reg, nodes, i);
    }
    forall i, j | 0 <= i < j < |nodes|
      ensures nodes[i].id != nodes[j].id && selected[i].selector != selected[j].selector
    {
      CleanNode(p, reg, nodes, j);
    }
  }

  lemma CleanNode(p: Platform, reg: Registry, nodes: seq<Node>, j: nat)
    requires j < |nodes| && FirstProblem(p, reg, nodes, 0).None?
    ensures nodes[j].id != "" && Refine(p, reg, nodes[j]) == Ok(Selected(p, reg, nodes)[j])
    ensures Selected(p, reg, nodes)[j].id == nodes[j].id
    ensures forall i | 0 <= i < j ::
              nodes[i].id != nodes[j].id
              && (Refine(p, reg, nodes[i]).Ok? ==>
                    Refine(p, reg, nodes[i]).value.selector != Selected(p, reg, nodes)[j].selector)
  {
    NoProblem(p, reg, nodes, 0, j);
    assert !EarlierId(nodes, j);
    assert !EarlierSelector(p, reg, nodes, j, Selected(p, reg, nodes)[j].selector);
  }

  // ---------- the builder as the program runs it ----------

  datatype Tombstone = Tombstone(selector: string, ref: NodeRef)

  predicate TombstoneLess(a: Tombstone, b: Tombstone) {
    Earlier(a.ref.until, a.selector, b.ref.until, b.selector)
  }

  predicate TombstoneLe(a: Tombstone, b: Tombstone) {
    !TombstoneLess(b, a)
  }

  lemma TombstoneOrder()
    ensures Preorder(TombstoneLe)
  {
    forall x: Tombstone, y: Tombstone
      ensures TombstoneLe(x, y) || TombstoneLe(y, x)
    {
      if TombstoneLess(x, y) && TombstoneLess(y, x) {
        StringLessTransitive(x.selector, y.selector, x.selector);
        StringLessIrreflexive(x.selector);
      }
    }
    forall x: Tombstone, y: Tombstone, z: Tombstone | TombstoneLe(x, y) && TombstoneLe(y, z)
      ensures TombstoneLe(x, z)
    {
      if TombstoneLess(z, x) {
        StringLessTotal(x.selector, y.selector);
        StringLessTotal(y.selector, z.selector);
        if z.ref.until == x.ref.until == y.ref.until {
          if x.selector != y.selector {
            StringLessTransitive(z.selector, x.selector, y.selector);
          }
        }
      }
    }
  }

  // Rearranging keeps a repetition-free sequence repetition-free.
  lemma DistinctRearranged<T>(a: seq<T>, b: seq<T>)
    requires Distinct(a) && multiset(a) == multiset(b)
    ensures Distinct(b)
  {
    forall i, j | 0 <= i < j < |b|
      ensures b[i] != b[j]
    {
      if b[i] == b[j] {
        var x := b[i];
        assert b == b[..i] + [b[i]] + b[i + 1..j] + [b[j]] + b[j + 1..];
        assert multiset(b)[x] >= 2;
        DistinctOnce(a, x);
      }
    }
  }

  lemma {:induction false} DistinctOnce<T>(a: seq<T>, x: T)
    requires Distinct(a)
    ensures multiset(a)[x] <= 1
  {
    if a != [] {
      assert a == [a[0]] + a[1..];
      assert Distinct(a[1..]);
      DistinctOnce(a[1..], x);
      assert a[0] !in a[1..];
    }
  }

  // Every tombstone in the sequence is one of the dead names, and no name twice.
  ghost predicate Lists(ts: seq<Tombstone>, dead: map<string, Time>, want: nat) {
    && (forall t | t in ts :: t.selector in dead && t.ref == DeadRef(want, dead[t.selector]))
    && Distinct(ts)
  }

  lemma ListsNames(ts: seq<Tombstone>, dead: map<string, Time>, want: nat)
    requires Lists(ts, dead, want)
    ensures forall i, j | 0 <= i < j < |ts| :: ts[i].selector != ts[j].selector
    ensures |set t | t in ts :: t.selector| == |ts|
  {
    forall i, j | 0 <= i < j < |ts|
      ensures ts[i].selector != ts[j].selector
    {
      assert ts[i] in ts && ts[j] in ts && ts[i] != ts[j];
    }
    var names := seq(|ts|, i requires 0 <= i < |ts| => ts[i].selector);
    DistinctCardinality(names);
    assert (set x | x in names) == (set t | t in ts :: t.selector) by {
      forall t | t in ts
        ensures t.selector in names
      {
        var k :| 0 <= k < |ts| && ts[k] == t;
        assert names[k] == t.selector;
      }
    }
  }

  lemma LaterIsGreater(ts: seq<Tombstone>, dead: map<string, Time>, want: nat, i: nat, j: nat)
    requires Lists(ts, dead, want) && Sorted(TombstoneLe, ts)
    requires j < i < |ts|
    ensures ts[i].selector in dead && ts[j].selector in dead
    ensures Earlier(dead[ts[j].selector], ts[j].selector, dead[ts[i].selector], ts[i].selector)
  {
    assert ts[i] in ts && ts[j] in ts;
    assert TombstoneLe(ts[j], ts[i]);
    assert ts[i] != ts[j];
    StringLessTotal(ts[i].selector, ts[j].selector);
  }

  ghost function Names(ts: seq<Tombstone>): set<string> {
    set t | t in ts :: t.selector
  }

  lemma NamesOfTail(ts: seq<Tombstone>, dead: map<string, Time>, want: nat, cut: nat)
    requires Lists(ts, dead, want) && cut <= |ts|
    ensures Lists(ts[cut..], dead, want)
    ensures |Names(ts[cut..])| == |ts| - cut
  {
    forall i, j | 0 <= i < j < |ts[cut..]|
      ensures ts[cut..][i] != ts[cut..][j]
    {
      assert ts[cut + i] != ts[cut + j];
    }
    ListsNames(ts[cut..], dead, want);
  }

  lemma NameIndex(ts: seq<Tombstone>, name: string) returns (i: nat)
    requires name in Names(ts)
    ensures i < |ts| && ts[i].selector == name
  {
    i :| 0 <= i < |ts| && ts[i].selector == name;
  }

  lemma CutSeparates(ts: seq<Tombstone>, dead: map<string, Time>, want: nat, cut: nat, k: string, d: string)
    requires Lists(ts, dead, want) && Sorted(TombstoneLe, ts) && cut <= |ts|
    requires k in Names(ts[cut..]) && d in Names(ts) && d !in Names(ts[cut..])
    ensures k in dead && d in dead && Earlier(dead[d], d, dead[k], k)
  {
    assert ts == ts[..cut] + ts[cut..];
    var i := NameIndex(ts[cut..], k);
    var j := NameIndex(ts[..cut], d);
    assert ts[cut..][i] == ts[cut + i];
    LaterIsGreater(ts, dead, want, cut + i, j);
  }

  // Cutting a sorted complete list to its tail keeps exactly the greatest names.
  lemma CutKeepsGreatest(ts: seq<Tombstone>, dead: map<string, Time>, want: nat, cut: nat)
    requires Lists(ts, dead, want) && Sorted(TombstoneLe, ts)
    requires dead.Keys <= Names(ts)
    requires cut == (if |ts| > MAX_TOMBSTONES then |ts| - MAX_TOMBSTONES else 0)
    ensures Greatest(dead, Names(ts[cut..]))
  {
    var kept := Names(ts[cut..]);
    NamesOfTail(ts, dead, want, 0);
    assert ts[0..] == ts;
    NamesOfTail(ts, dead, want, cut);
    assert Names(ts) == dead.Keys;
    assert |dead| == |dead.Keys| == |ts|;
    assert kept <= dead.Keys;
    forall k, d | k in kept && d in dead.Keys - kept
      ensures Earlier(dead[d], d, dead[k], k)
    {
      CutSeparates(ts, dead, want, cut, k, d);
    }
  }

  lemma SeenId(nodes: seq<Node>, i: nat, ids: set<string>)
    requires i < |nodes|
    requires ids == set j: nat | j < i :: nodes[j].id
    ensures nodes[i].id in ids <==> EarlierId(nodes, i)
  {
  }

  lemma SeenSelector(p: Platform, reg: Registry, nodes: seq<Node>, i: nat, activeIndex: map<string, nat>, name: string)
    requires i < |nodes|
    requires forall j | 0 <= j < i :: Refine(p, reg, nodes[j]).Ok?
    requires Indexes(activeIndex, Selected(p, reg, nodes)[..i])
    ensures name in activeIndex <==> EarlierSelector(p, reg, nodes, i, name)
  {
    var selected := Selected(p, reg, nodes)[..i];
    if name in activeIndex {
      var k := activeIndex[name];
      assert selected[k] == Refine(p, reg, nodes[k]).value;
    }
    if EarlierSelector(p, reg, nodes, i, name) {
      var k: nat :| k < i && Refine(p, reg, nodes[k]).Ok? && Refine(p, reg, nodes[k]).value.selector == name;
      assert selected[k] == Refine(p, reg, nodes[k]).value;
    }
  }

  lemma IndexesAppend(activeIndex: map<string, nat>, selected: seq<Node>, n: Node)
    requires Indexes(activeIndex, selected) && n.selector !in activeIndex
    ensures Indexes(activeIndex[n.selector := |selected|], selected + [n])
  {
  }

  // The scan after i nodes, none of which had a problem.
  ghost predicate Scanned(p: Platform, reg: Registry, nodes: seq<Node>, i: nat, ids: set<string>, selected: seq<Node>,
                          activeIndex: map<string, nat>) {
    && i <= |nodes|
    && (forall j | 0 <= j < i :: Refine(p, reg, nodes[j]).Ok?)
    && ids == (set j: nat | j < i :: nodes[j].id)
    && selected == Selected(p, reg, nodes)[..i]
    && Indexes(activeIndex, selected)
  }

  lemma ScanStep(p: Platform, reg: Registry, nodes: seq<Node>, i: nat, ids: set<string>, selected: seq<Node>,
                 activeIndex: map<string, nat>, n: Node)
    requires i < |nodes| && Scanned(p, reg, nodes, i, ids, selected, activeIndex)
    requires Refine(p, reg, nodes[i]) == Ok(n) && n.selector !in activeIndex
    ensures Scanned(p, reg, nodes, i + 1, ids + {nodes[i].id}, selected + [n], activeIndex[n.selector := |selected|])
  {
    IndexesAppend(activeIndex, selected, n);
    assert Selected(p, reg, nodes)[..i + 1] == Selected(p, reg, nodes)[..i] + [n];
  }

  // What the scan decides about node i is its problem, if any.
  lemma ScanDecides(p: Platform, reg: Registry, nodes: seq<Node>, i: nat, ids: set<string>, selected: seq<Node>,
                    activeIndex: map<string, nat>)
    requires i < |nodes| && Scanned(p, reg, nodes, i, ids, selected, activeIndex)
    ensures NodeProblem(p, reg, nodes, i) ==
            if nodes[i].id == "" || nodes[i].id in ids then Some(DuplicateNode)
            else if Refine(p, reg, nodes[i]).Err? then Some(Refine(p, reg, nodes[i]).error)
            else if Refine(p, reg, nodes[i]).value.selector in activeIndex then Some(DuplicateNode) else None
  {
    SeenId(nodes, i, ids);
    if Refine(p, reg, nodes[i]).Ok? {
      SeenSelector(p, reg, nodes, i, activeIndex, Refine(p, reg, nodes[i]).value.selector);
    }
  }

  // First loop: refine every node and index it by its selector.
  method SelectNodes(p: Platform, reg: Registry, nodes: seq<Node>)
    returns (problem: Option<BuildError>, selected: seq<Node>, activeIndex: map<string, nat>)
    ensures problem == FirstProblem(p, reg, nodes, 0)
    ensures problem.None? ==>
              && selected == Selected(p, reg, nodes)
              && Indexes(activeIndex, selected)
    ensures problem.None? ==> forall i | 0 <= i < |nodes| :: BuiltFrom(p, reg.selectorKey, nodes[i], selected[i])
  {
    var ids: set<string> := {};
    selected, activeIndex := [], map[];
    for i := 0 to |nodes|
      invariant FirstProblem(p, reg, nodes, 0) == FirstProblem(p, reg, nodes, i)
      invariant Scanned(p, reg, nodes, i, ids, selected, activeIndex)
    {
      var source := nodes[i];
      ScanDecides(p, reg, nodes, i, ids, selected, activeIndex);
      if source.id == "" || source.id in ids {
        return Some(DuplicateNode), [], map[];
      }
      var identity := CanonicalIdentityOf(p, source.id, source.provider, source.host, source.port);
      if identity.Err? {
        return Some(identity.error), [], map[];
      }
      var credential := CredentialsOf(p, identity.value, reg.selectorKey, reg.proxyKey);
      if credential.Err? {
        return Some(credential.error), [], map[];
      }
      if credential.value.selector in activeIndex {
        return Some(DuplicateNode), [], map[];
      }
      source := source.(provider := identity.value.provider, host := identity.value.host, port := identity.value.port,
                        selector := credential.value.selector);
      ScanStep(p, reg, nodes, i, ids, selected, activeIndex, source);
      ids := ids + {source.id};
      activeIndex := activeIndex[source.selector := |selected|];
      selected := selected + [source];
    }
    SelectedFrom(p, reg, nodes);
    return None, selected, activeIndex;
  }

  ghost predicate Indexes(activeIndex: map<string, nat>, selected: seq<Node>) {
    && (forall k | 0 <= k < |selected| :: selected[k].selector in activeIndex && activeIndex[selected[k].selector] == k)
    && (forall name | name in activeIndex ::
          activeIndex[name] < |selected| && selected[activeIndex[name]].selector == name)
  }

  lemma BorneByIndex(activeIndex: map<string, nat>, selected: seq<Node>, name: string, id: string)
    requires Indexes(activeIndex, selected)
    ensures Borne(selected, name, id) <==> name in activeIndex && selected[activeIndex[name]].id == id
  {
    if n :| n in selected && n.selector == name && n.id == id {
      var k :| 0 <= k < |selected| && selected[k] == n;
      assert selected[k].selector in activeIndex;
    }
    if name in activeIndex {
      assert selected[activeIndex[name]] in selected;
    }
  }

  // Second loop: visit the previous references in any order, marking blocked
  // nodes inactive and collecting the names that must stay refused.
  method CollectTombstones(selected: seq<Node>, activeIndex: map<string, nat>, previous: Selectors, want: nat,
                           now: Time)
    returns (active: array<bool>, tombstones: seq<Tombstone>)
    requires Indexes(activeIndex, selected)
    ensures Lists(tombstones, Entombed(selected, previous, want, now), want)
    ensures Entombed(selected, previous, want, now).Keys <= Names(tombstones)
    ensures active.Length == |selected|
    ensures forall k | 0 <= k < |selected| ::
              active[k] <==> selected[k].selector !in Entombed(selected, previous, want, now)
  {
    ghost var dead := Entombed(selected, previous, want, now);
    active := new bool[|selected|](_ => true);
    tombstones := [];
    var rest := previous.Keys;
    while rest != {}
      invariant rest <= previous.Keys
      invariant Lists(tombstones, dead, want)
      invariant Names(tombstones) == dead.Keys - rest
      invariant fresh(active) && active.Length == |selected|
      invariant forall k | 0 <= k < |selected| ::
                  active[k] <==> selected[k].selector in rest || selected[k].selector !in dead
    {
      var name :| name in rest;
      var ref := previous[name];
      BorneByIndex(activeIndex, selected, name, ref.nodeID);
      rest := rest - {name};
      if ref.generation != want {
        continue;
      }
      if ref.tombstoned {
        if ref.until != UNSET && ref.until <= now {
          continue;
        }
        if name in activeIndex {
          active[activeIndex[name]] := false;
        }
        tombstones := Append(tombstones, Tombstone(name, ref.(nodeID := "")), dead, want);
      } else if !(name in activeIndex && ref.nodeID == selected[activeIndex[name]].id) {
        if name in activeIndex {
          active[activeIndex[name]] := false;
        }
        tombstones := Append(tombstones, Tombstone(name, NodeRef("", want, true, now + GRACE)), dead, want);
      }
    }
  }

  function Append(ts: seq<Tombstone>, t: Tombstone, ghost dead: map<string, Time>, ghost want: nat): (r: seq<Tombstone>)
    requires Lists(ts, dead, want)
    requires t.selector in dead && t.ref == DeadRef(want, dead[t.selector]) && t.selector !in Names(ts)
    ensures Lists(r, dead, want) && Names(r) == Names(ts) + {t.selector}
  {
    assert t !in ts;
    ts + [t]
  }

  lemma LiveViewGrows(nodes: seq<Node>, selectors: Selectors, want: nat, n: Node)
    requires LiveView(nodes, selectors, want) && forall m | m in nodes :: m.selector != n.selector
    ensures LiveView(nodes + [n], selectors[n.selector := LiveRef(n, want)], want)
  {
    var grown := selectors[n.selector := LiveRef(n, want)];
    assert n in nodes + [n];
    forall name | name in grown
      ensures !grown[name].tombstoned && exists m :: m in nodes + [n] && m.selector == name
    {
      if name != n.selector {
        var m :| m in nodes && m.selector == name;
        assert m in nodes + [n];
      }
    }
  }

  // Last loops: the surviving nodes with live references, then the kept tombstones.
  method KeepActive(selected: seq<Node>, active: array<bool>, ghost dead: map<string, Time>, want: nat)
    returns (survivors: seq<Node>, selectors: Selectors)
    requires DistinctSelectors(selected) && active.Length == |selected|
    requires forall k | 0 <= k < |selected| :: active[k] <==> selected[k].selector !in dead
    ensures survivors == Survivors(selected, dead)
    ensures LiveView(survivors, selectors, want)
    ensures selectors.Keys !! dead.Keys
  {
    survivors, selectors := [], map[];
    for i := 0 to |selected|
      invariant survivors == Survivors(selected[..i], dead)
      invariant LiveView(survivors, selectors, want)
    {
      assert selected[..i + 1][..i] == selected[..i];
      if active[i] {
        SurvivorsExactly(selected[..i], dead);
        assert forall n | n in selected[..i] :: n.selector != selected[i].selector;
        LiveViewGrows(survivors, selectors, want, selected[i]);
        selectors := selectors[selected[i].selector := NodeRef(selected[i].id, want, false, UNSET)];
        survivors := survivors + [selected[i]];
      }
    }
    assert selected[..|selected|] == selected;
    SurvivorsExactly(selected, dead);
  }

  // Every node has its live reference, and there is nothing else.
  ghost predicate LiveView(nodes: seq<Node>, selectors: Selectors, want: nat) {
    && (forall n | n in nodes :: n.selector in selectors && selectors[n.selector] == LiveRef(n, want))
    && (forall name | name in selectors :: !selectors[name].tombstoned && exists n :: n in nodes && n.selector == name)
  }

  method AddTombstones(live: Selectors, kept: seq<Tombstone>, ghost dead: map<string, Time>, want: nat)
    returns (selectors: Selectors)
    requires Lists(kept, dead, want) && live.Keys !! dead.Keys
    ensures selectors.Keys == live.Keys + Names(kept)
    ensures forall name | name in live :: selectors[name] == live[name]
    ensures forall name | name in Names(kept) :: name in dead && selectors[name] == DeadRef(want, dead[name])
  {
    selectors := live;
    for i := 0 to |kept|
      invariant selectors.Keys == live.Keys + Names(kept[..i])
      invariant forall name | name in live :: selectors[name] == live[name]
      invariant forall name | name in Names(kept[..i]) :: name in dead && selectors[name] == DeadRef(want, dead[name])
    {
      assert kept[i] in kept;
      assert kept[..i + 1] == kept[..i] + [kept[i]];
      selectors := selectors[kept[i].selector := kept[i].ref];
    }
    assert kept[..|kept|] == kept;
  }

  lemma Assembled(nodes: seq<Node>, live: Selectors, selectors: Selectors, kept: set<string>, dead: map<string, Time>,
                  want: nat)
    requires LiveView(nodes, live, want) && live.Keys !! dead.Keys && Greatest(dead, kept)
    requires selectors.Keys == live.Keys + kept
    requires forall name | name in live :: selectors[name] == live[name]
    requires forall name | name in kept :: name in dead && selectors[name] == DeadRef(want, dead[name])
    ensures IsView(BuildResult(nodes, selectors), dead, want)
  {
    assert Tombstones(selectors) == kept;
  }

  method BuildWithTombstones(p: Platform, reg: Registry, want: nat, nodes: seq<Node>, previous: Selectors, now: Time)
    returns (r: Result<BuildResult, BuildError>)
    ensures r.Err? ==> BuildProblem(p, reg, want, nodes, previous) == Some(r.error)
    ensures r.Ok? ==> IsBuild(p, reg, want, nodes, previous, now, r.value)
    ensures r.Ok? ==> BuiltOf(p, reg, nodes, r.value.nodes)
  {
    if want != 0 && want != reg.generation {
      return Err(UnknownGeneration);
    }
    if |nodes| > MAX_LIVE {
      return Err(TooManyNodes);
    }
    if |previous| > MAX_PREVIOUS {
      return Err(TooManySelectors);
    }
    var problem, selected, activeIndex := SelectNodes(p, reg, nodes);
    if problem.Some? {
      return Err(problem.value);
    }
    ghost var dead := Entombed(selected, previous, want, now);
    var active, tombstones := CollectTombstones(selected, activeIndex, previous, want, now);
    TombstoneOrder();
    var sorted := SortSlice(TombstoneLe, tombstones);
    ListsRearranged(tombstones, sorted, dead, want);
    ghost var all := sorted;
    ghost var cut := if |sorted| > MAX_TOMBSTONES then |sorted| - MAX_TOMBSTONES else 0;
    if |sorted| > MAX_TOMBSTONES {
      sorted := sorted[|sorted| - MAX_TOMBSTONES..];
    }
    assert sorted == all[cut..];
    CutKeepsGreatest(all, dead, want, cut);
    NamesOfTail(all, dead, want, cut);
    SelectedDistinct(p, reg, nodes);
    var survivors, live := KeepActive(selected, active, dead, want);
    var selectors := AddTombstones(live, sorted, dead, want);
    Assembled(survivors, live, selectors, Names(sorted), dead, want);
    SurvivorsFrom(p, reg, nodes, dead);
    return Ok(BuildResult(survivors, selectors));
  }

  lemma ListsRearranged(a: seq<Tombstone>, b: seq<Tombstone>, dead: map<string, Time>, want: nat)
    requires Lists(a, dead, want) && multiset(a) == multiset(b)
    ensures Lists(b, dead, want) && Names(b) == Names(a)
  {
    DistinctRearranged(a, b);
    assert forall t :: t in a <==> t in multiset(a);
    assert forall t :: t in b <==> t in multiset(b);
  }
}
