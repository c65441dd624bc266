/**
 The adapter's durable and runtime records (internal/state/types.go) with the
 structural checks every publication has to pass. Characters of a string stand
 for bytes; clock readings are arguments.
 */
module StateTypes {
  import opened Foundations

  const NUL: char := '\0'
  const MAX_NODES: nat := 4096
  const MAX_SELECTOR_REFS: nat := 4096 + 8192
  const MAX_SESSION_FIELD: nat := 4096
  const MAX_EXTENSION: nat := 3 * MAX_SESSION_FIELD + 128
  const KEY_SIZE: nat := 32
  const TUNNEL_METHOD: string := "aes-256-cfb"

  type Key = seq<bv8>

  // ---------- nodes ----------

  datatype Profile = Unspecified | IOS | Windows | OtherProfile(name: string) {
    predicate Known() {
      this == IOS || this == Windows
    }
  }

  datatype Health = Unknown | Healthy | Unhealthy | Unsupported

  datatype Node = Node(id: string, selector: string, provider: string, profile: Profile, host: string, port: nat,
                       name: string, group: string, eligible: bool, excluded: bool,
                       health: Health, roundTrip: nat, probedAt: Time)
  {
    function EffectiveProfile(): Profile {
      if profile == Unspecified then IOS else profile
    }

    predicate TunnelEligible() {
      eligible && EffectiveProfile().Known() && port != 0 && host != "" && IsWifiin(provider)
    }

    // The structural check shared by runtime and persisted nodes.
    predicate Valid() {
      id != "" && provider != "" && host != "" && port != 0 && NUL !in provider && NUL !in host
    }
  }

  // Marked for no profile is marked for iOS; any other mark than the two is refused.
  lemma TunnelEligibleExactly(n: Node)
    ensures n.TunnelEligible() <==>
              n.eligible && !n.profile.OtherProfile? && |n.host| > 0 && n.port > 0 && IsWifiin(n.provider)
  {
  }

  // The check as the program runs it.
  method ValidateNode(node: Node) returns (ok: bool)
    ensures ok <==> node.Valid()
  {
    if node.id == "" || node.provider == "" || node.host == "" {
      return false;
    }
    if NUL in node.provider || NUL in node.host {
      return false;
    }
    return node.port > 0;
  }

  function UpperByte(c: char): char {
    if 'a' <= c <= 'z' then c - 'a' + 'A' else c
  }

  function Upper(s: string): string {
    seq(|s|, i requires 0 <= i < |s| => UpperByte(s[i]))
  }

  const LOWER_CASE: string := "abcdefghijklmnopqrstuvwxyz"
  const UPPER_CASE: string := "ABCDEFGHIJKLMNOPQRSTUVWXYZ"

  // Small letters become the capital letters of the same place in the alphabet;
  // nothing else changes.
  ghost predicate Capital(c: char, d: char) {
    if c in LOWER_CASE then exists k :: 0 <= k < 26 && LOWER_CASE[k] == c && UPPER_CASE[k] == d else d == c
  }

  ghost predicate UpperCaseOf(s: string, u: string) {
    |u| == |s| && forall i | 0 <= i < |s| :: Capital(s[i], u[i])
  }

  lemma CapitalExactly(c: char, d: char)
    ensures Capital(c, d) <==> d == UpperByte(c)
  {
    SmallLetters(c);
    if 'a' <= c <= 'z' {
      AlphabetAt((c - 'a') as nat);
    }
    if k: nat :| k < 26 && LOWER_CASE[k] == c && UPPER_CASE[k] == d {
      AlphabetAt(k);
    }
  }

  lemma SmallLetters(c: char)
    ensures c in LOWER_CASE <==> 'a' <= c <= 'z'
  {
    if c in LOWER_CASE {
      var k :| 0 <= k < |LOWER_CASE| && LOWER_CASE[k] == c;
      AlphabetAt(k);
    } else if 'a' <= c <= 'z' {
      AlphabetAt((c - 'a') as nat);
    }
  }

  lemma CapitalLetters(c: char)
    ensures c in UPPER_CASE <==> 'A' <= c <= 'Z'
  {
    if c in UPPER_CASE {
      var k :| 0 <= k < |UPPER_CASE| && UPPER_CASE[k] == c;
      AlphabetAt(k);
    } else if 'A' <= c <= 'Z' {
      AlphabetAt((c - 'A') as nat);
    }
  }

  lemma UpperExactly(s: string, u: string)
    ensures u == Upper(s) <==> UpperCaseOf(s, u)
  {
    forall i | 0 <= i < |s| && |u| == |s|
      ensures Capital(s[i], u[i]) <==> u[i] == UpperByte(s[i])
    {
      CapitalExactly(s[i], u[i]);
    }
  }

  lemma AlphabetAt(k: nat)
    requires k < 26
    ensures LOWER_CASE[k] == 'a' + k as char && UPPER_CASE[k] == 'A' + k as char
  {
  }

  // No letter of WIFIIN has a case variant outside ASCII.
  predicate IsWifiin(provider: string) {
    Upper(provider) == "WIFIIN"
  }

  lemma WifiinExactly(provider: string)
    ensures IsWifiin(provider) <==>
              && |provider| == 6 && provider[0] in "Ww" && provider[1] in "Ii" && provider[2] in "Ff"
              && provider[3] in "Ii" && provider[4] in "Ii" && provider[5] in "Nn"
  {
    if |provider| == 6 {
      var u := Upper(provider);
      assert u == [u[0], u[1], u[2], u[3], u[4], u[5]];
    }
  }

  function FindNode(nodes: seq<Node>, id: string): (r: Option<Node>)
    ensures r.Some? ==> r.value in nodes && r.value.id == id
    ensures r.None? ==> forall n | n in nodes :: n.id != id
  {
    if nodes == [] then None
    else if nodes[0].id == id then Some(nodes[0])
    else FindNode(nodes[1..], id)
  }

  method NodeByID(nodes: seq<Node>, id: string) returns (r: Option<Node>)
    ensures r == FindNode(nodes, id)
  {
    for i := 0 to |nodes|
      invariant FindNode(nodes, id) == FindNode(nodes[i..], id)
    {
      if nodes[i].id == id {
        return Some(nodes[i]);
      }
    }
    return None;
  }

  ghost predicate DistinctIds(nodes: seq<Node>) {
    forall i, j | 0 <= i < j < |nodes| :: nodes[i].id != nodes[j].id
  }

  // ---------- selector references ----------

  datatype NodeRef = NodeRef(nodeID: string, generation: nat, tombstoned: bool, until: Time) {
    predicate IsTombstoned(now: Time) {
      tombstoned && (until == UNSET || now < until)
    }
  }

  type Selectors = map<string, NodeRef>

  // ---------- provider sessions ----------

  datatype SessionSecrets = SessionSecrets(userID: string, loginToken: string, providerToken: string,
                                           tunnelPassword: string, tunnelMethod: string, extension: string)
  {
    predicate Valid() {
      && ValidSessionField(userID, MAX_SESSION_FIELD)
      && ValidSessionField(loginToken, MAX_SESSION_FIELD)
      && ValidSessionField(providerToken, MAX_SESSION_FIELD)
      && ValidSessionField(tunnelPassword, MAX_SESSION_FIELD)
      && ValidSessionField(tunnelMethod, MAX_SESSION_FIELD)
      && ValidSessionField(extension, MAX_EXTENSION)
    }
  }

  const NO_SESSION := SessionSecrets("", "", "", "", "", "")

  predicate ValidSessionField(value: string, limit: nat) {
    value != "" && |value| <= limit && NUL !in value
  }

  datatype ClientSessions = ClientSessions(ios: SessionSecrets, windows: SessionSecrets) {
    predicate Valid() {
      ios.Valid() && (windows == NO_SESSION || (windows.Valid() && windows.userID == ios.userID))
    }

    function UserID(): string {
      if Valid() then ios.userID else ""
    }

    function For(profile: Profile): Option<SessionSecrets> {
      match profile
      case Unspecified => if ios.Valid() then Some(ios) else None
      case IOS => if ios.Valid() then Some(ios) else None
      case Windows => if windows.Valid() then Some(windows) else None
      case OtherProfile(_) => None
    }
  }

  const WIPED := ClientSessions(NO_SESSION, NO_SESSION)

  // Every field of a session is there, within its limit and without a NUL.
  lemma SessionExactly(s: SessionSecrets)
    ensures s.Valid() <==>
              && (forall field | field in [s.userID, s.loginToken, s.providerToken, s.tunnelPassword, s.tunnelMethod] ::
                    0 < |field| <= 4096 && '\0' !in field)
              && 0 < |s.extension| <= 12416 && '\0' !in s.extension
  {
    var fields := [s.userID, s.loginToken, s.providerToken, s.tunnelPassword, s.tunnelMethod];
    assert fields[0] in fields && fields[1] in fields && fields[2] in fields && fields[3] in fields
           && fields[4] in fields;
  }

  // iOS authority is always there; the other profile is absent or of the same user.
  lemma SessionsExactly(s: ClientSessions)
    ensures s.Valid() <==> s.ios.Valid() && (s.windows.Valid() ==> s.windows.userID == s.ios.userID)
                           && (!s.windows.Valid() ==> s.windows == SessionSecrets("", "", "", "", "", ""))
    ensures s.UserID() != "" <==> s.Valid()
    ensures s.Valid() ==> s.UserID() == s.ios.userID
  {
  }

  // The authority of a profile: a node marked for Windows gets the Windows
  // session, one marked for iOS or not at all the iOS session, any other none.
  predicate AuthorityOf(s: ClientSessions, profile: Profile, session: SessionSecrets) {
    || ((profile == Unspecified || profile == IOS) && session == s.ios && s.ios.Valid())
    || (profile == Windows && session == s.windows && s.windows.Valid())
  }

  // The selection as the program makes it.
  method SessionFor(s: ClientSessions, profile: Profile) returns (session: SessionSecrets, available: bool)
    ensures s.For(profile) == if available then Some(session) else None
    ensures available <==> exists a :: AuthorityOf(s, profile, a)
    ensures available ==> AuthorityOf(s, profile, session)
  {
    match profile {
      case Windows =>
        session := s.windows;
        available := s.windows.Valid();
      case OtherProfile(_) =>
        session, available := NO_SESSION, false;
      case _ =>
        session := s.ios;
        available := s.ios.Valid();
    }
    assert available ==> AuthorityOf(s, profile, session);
  }

  lemma ForExactly(s: ClientSessions, profile: Profile, session: SessionSecrets)
    ensures s.For(profile) == Some(session) <==> AuthorityOf(s, profile, session)
  {
  }

  // ---------- the runtime snapshot ----------

  datatype AccountSummary = AccountSummary(display: string, isVIP: bool, vipEndsAt: Time)

  const NO_ACCOUNT := AccountSummary("", false, UNSET)

  datatype RuntimeSnapshot = RuntimeSnapshot(generation: nat, createdAt: Time, expiresAt: Time,
                                             account: AccountSummary, sessions: ClientSessions,
                                             nodes: seq<Node>, selectors: Selectors)

  predicate SessionUsable(snapshot: Option<RuntimeSnapshot>, now: Time) {
    && snapshot.Some?
    && snapshot.value.sessions.Valid()
    && snapshot.value.createdAt != UNSET && snapshot.value.expiresAt != UNSET
    && snapshot.value.createdAt <= now < snapshot.value.expiresAt
  }

  // From its creation until just before its expiry.
  lemma UsableExactly(s: RuntimeSnapshot, now: Time)
    ensures !SessionUsable(None, now)
    ensures SessionUsable(Some(s), now) <==> s.sessions.UserID() != "" && 0 < s.createdAt <= now < s.expiresAt
  {
    SessionsExactly(s.sessions);
  }

  ghost predicate ValidReference(name: string, ref: NodeRef, nodes: seq<Node>) {
    && name != "" && ref.generation != 0
    && if ref.tombstoned then ref.nodeID == "" && ref.until != UNSET
       else ref.nodeID != "" && exists n :: n in nodes && n.id == ref.nodeID
  }

  ghost predicate ValidRuntimeNode(node: Node, sessions: ClientSessions, usable: bool) {
    node.Valid() && (usable ==> sessions.For(node.EffectiveProfile()).Some?)
  }

  ghost predicate ValidRuntimeSnapshot(s: RuntimeSnapshot, now: Time) {
    && s.generation != 0 && s.createdAt != UNSET && s.expiresAt != UNSET
    && s.createdAt < s.expiresAt <= s.createdAt + DAY
    && |s.nodes| <= MAX_NODES && |s.selectors| <= MAX_SELECTOR_REFS
    && (now < s.expiresAt ==> s.sessions.Valid())
    && (forall n | n in s.nodes :: ValidRuntimeNode(n, s.sessions, now < s.expiresAt))
    && DistinctIds(s.nodes)
    && (forall name | name in s.selectors :: ValidReference(name, s.selectors[name], s.nodes))
  }

  // The check as the program runs it: one pass over the nodes collecting
  // identifiers, then one over the references in whatever order the map gives.
  method ValidateRuntimeSnapshot(s: RuntimeSnapshot, now: Time) returns (ok: bool)
    ensures ok <==> ValidRuntimeSnapshot(s, now)
  {
    if s.generation == 0 || s.createdAt == UNSET || s.expiresAt == UNSET {
      return false;
    }
    if !(s.createdAt < s.expiresAt) || s.expiresAt - s.createdAt > DAY {
      return false;
    }
    if |s.nodes| > MAX_NODES || |s.selectors| > MAX_SELECTOR_REFS {
      return false;
    }
    if now < s.expiresAt && !s.sessions.Valid() {
      return false;
    }
    var nodesOk, ids := ValidateRuntimeNodes(s.nodes, s.sessions, now < s.expiresAt);
    if !nodesOk {
      return false;
    }
    ok := ValidateSelectors(s.selectors, s.nodes, ids);
  }

  // The loop over the nodes, collecting their identifiers.
  method ValidateRuntimeNodes(nodes: seq<Node>, sessions: ClientSessions, usable: bool)
    returns (ok: bool, ids: set<string>)
    ensures ok <==> (forall n | n in nodes :: ValidRuntimeNode(n, sessions, usable)) && DistinctIds(nodes)
    ensures ok ==> ids == set n | n in nodes :: n.id
  {
    ids := {};
    for i := 0 to |nodes|
      invariant ids == set n | n in nodes[..i] :: n.id
      invariant forall n | n in nodes[..i] :: ValidRuntimeNode(n, sessions, usable)
      invariant DistinctIds(nodes[..i])
    {
      var node := nodes[i];
      assert node in nodes;
      var complete := ValidateNode(node);
      var session, available := SessionFor(sessions, node.EffectiveProfile());
      if !complete || (usable && !available) {
        return false, ids;
      }
      if node.id in ids {
        ghost var twin :| twin in nodes[..i] && twin.id == node.id;
        ghost var k :| 0 <= k < i && nodes[..i][k] == twin;
        assert nodes[k].id == nodes[i].id;
        return false, ids;
      }
      assert nodes[..i + 1] == nodes[..i] + [node];
      ids := ids + {node.id};
    }
    assert nodes[..|nodes|] == nodes;
    ok := true;
  }

  method ValidateSelectors(selectors: Selectors, nodes: seq<Node>, ids: set<string>) returns (ok: bool)
    requires ids == set n | n in nodes :: n.id
    ensures ok <==> forall name | name in selectors :: ValidReference(name, selectors[name], nodes)
  {
    var rest := selectors.Keys;
    while rest != {}
      invariant rest <= selectors.Keys
      invariant forall name | name in selectors && name !in rest :: ValidReference(name, selectors[name], nodes)
    {
      var name :| name in rest;
      var ref := selectors[name];
      if name == "" || ref.generation == 0 {
        return false;
      }
      if ref.tombstoned {
        if ref.nodeID != "" || ref.until == UNSET {
          return false;
        }
      } else if ref.nodeID == "" || ref.nodeID !in ids {
        return false;
      }
      rest := rest - {name};
    }
    return true;
  }

  // ---------- the durable aggregate ----------

  datatype SubscriptionGeneration = SubscriptionGeneration(number: nat, selectorKey: Key, proxyKey: Key,
                                                           binding: Key, activatedAt: Time)
  {
    predicate Valid() {
      && number != 0 && activatedAt != UNSET
      && |selectorKey| == KEY_SIZE && |proxyKey| == KEY_SIZE
      && (|binding| == 0 || |binding| == KEY_SIZE)
    }

    // Equality of credential material; the activation time is not compared.
    predicate SameKeys(other: SubscriptionGeneration) {
      selectorKey == other.selectorKey && proxyKey == other.proxyKey
    }

    predicate Same(other: SubscriptionGeneration) {
      number == other.number && SameKeys(other) && binding == other.binding
    }
  }

  // The check as the program runs it.
  method ValidateGeneration(g: SubscriptionGeneration) returns (ok: bool)
    ensures ok <==> g.Valid()
  {
    if g.number == 0 || g.activatedAt == UNSET {
      return false;
    }
    if |g.selectorKey| != KEY_SIZE || |g.proxyKey| != KEY_SIZE {
      return false;
    }
    return g.binding == [] || |g.binding| == KEY_SIZE;
  }

  datatype PersistedNode = PersistedNode(id: string, selector: string, provider: string, host: string, port: nat,
                                         name: string, group: string, eligible: bool, excluded: bool)
  {
    predicate Valid() {
      selector != "" && id != "" && provider != "" && host != "" && port != 0 && NUL !in provider && NUL !in host
    }

    predicate Renderable() {
      eligible && IsWifiin(provider) && host != "" && port != 0
    }
  }

  datatype LastGood = LastGood(generation: nat, createdAt: Time, nodes: seq<PersistedNode>, body: string,
                               fetchedGeneration: nat, fetchedAt: Time, fetchedHash: Key)

  const EMPTY_LAST_GOOD := LastGood(0, UNSET, [], "", 0, UNSET, [])

  // The verifier is the Argon2id hash of the access token, which doubles as the
  // key of account bindings. Preferences and the installation identifier do not
  // change in any operation modelled here and are left out.
  datatype PersistentState = PersistentState(verifier: Option<Key>, subscription: SubscriptionGeneration,
                                             lastGood: LastGood, active: Option<RuntimeSnapshot>)
}
