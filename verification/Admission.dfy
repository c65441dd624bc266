/**
 Admission of a tunnel by a SOCKS handler while the control plane changes under
 it (internal/socks/server.go). A handler reads the clock, the registry pointer
 and the manager in separate steps, three rounds of it; anything may happen in
 between. Handlers write nothing that another handler or the control plane
 reads, so a run with one handler in it is as general as any number of them.
 */
module Admission {
  import opened Foundations
  import opened StateTypes
  import opened Platform
  import opened Credentials
  import opened Manager
  import opened ManagerRuns
  import opened Control

  // The next thing a handler does.
  datatype Place =
    | Greeting
    | LoadFirst | PinFirst
    | AwaitRequest
    | LoadAgain | PinAgain | RecheckAgain
    | Dialling
    | Acknowledging
    | SessionFinal | LoadFinal | PinFinal | RecheckFinal
    | Replied | Closed
  {
    // A registry has been loaded in the round under way.
    predicate PastLoad() {
      PinFirst? || PinAgain? || RecheckAgain? || PinFinal? || RecheckFinal?
    }

    // The rounds behind a handler at this place.
    function Rounds(): nat {
      match this
      case Greeting | LoadFirst | PinFirst => 0
      case AwaitRequest | LoadAgain | PinAgain => 1
      case RecheckFinal | Replied => 3
      case _ => 2
    }

    predicate PastRecheck() {
      Dialling? || PastDial()
    }

    // Dialled, and the success reply still to come or sent.
    predicate PastDial() {
      Acknowledging? || SessionFinal? || PastConfirmation()
    }

    predicate PastConfirmation() {
      LoadFinal? || PinFinal? || RecheckFinal? || Replied?
    }
  }

  // Where a handler goes after the resolution of a round.
  function AfterPin(at: Place): Place {
    match at
    case PinFirst => AwaitRequest
    case PinAgain => RecheckAgain
    case _ => RecheckFinal
  }

  // What one round resolved: where in the run, under which registry, for which
  // clock reading.
  datatype Round = Round(index: nat, registry: Registry, now: Time, pin: TunnelPin)

  // dialled and sent are what went out to the upstream; confirmed is where, and
  // for which reading, the session was checked once more behind that.
  datatype Handler = Handler(at: Place, username: string, password: string, now: Time, registry: Option<Registry>,
                             rounds: seq<Round>, dialled: Option<Node>, sent: Option<SessionSecrets>,
                             confirmed: Option<(nat, Time)>)
  {
    function Pin(): Option<TunnelPin> {
      if rounds == [] then None else Some(rounds[|rounds| - 1].pin)
    }
  }

  const CONNECTED := Handler(Greeting, "", "", UNSET, None, [], None, None, None)

  datatype World = World(control: Control, now: Time, handler: Handler)

  // ---------- comparisons ----------

  predicate SamePinAuthority(left: TunnelPin, right: TunnelPin) {
    left.expiresAt == right.expiresAt && left.session == right.session
  }

  predicate SameCanonicalNode(p: Platform, left: Node, right: Node) {
    var a := Canonicalize(p, left.id, left.provider, left.host, left.port);
    var b := Canonicalize(p, right.id, right.provider, right.host, right.port);
    a.Ok? && b.Ok? && a.value == b.value
  }

  predicate Confirms(p: Platform, earlier: TunnelPin, later: TunnelPin) {
    SamePinAuthority(earlier, later) && later.node.TunnelEligible() && SameCanonicalNode(p, earlier.node, later.node)
  }

  // A node with a canonical form.
  ghost predicate Nameable(p: Platform, n: Node) {
    && |n.id| <= 256 && NUL !in n.id && 1 <= n.port <= 65535 && p.hostForm(n.host).Some?
    && n.provider != "" && forall c | c in n.provider :: 33 as char <= c <= 126 as char
  }

  // The same identifier and port, the same canonical host, and the same provider
  // but for letter case.
  ghost predicate SameNode(p: Platform, a: Node, b: Node) {
    && Nameable(p, a) && Nameable(p, b) && a.id == b.id && a.port == b.port && p.hostForm(a.host) == p.hostForm(b.host)
    && forall capitals :: UpperCaseOf(a.provider, capitals) <==> UpperCaseOf(b.provider, capitals)
  }

  lemma SameNodeExactly(p: Platform, a: Node, b: Node)
    ensures SameCanonicalNode(p, a, b) <==> SameNode(p, a, b)
  {
    UpperExactly(a.provider, Upper(a.provider));
    UpperExactly(b.provider, Upper(a.provider));
    forall capitals
      ensures UpperCaseOf(a.provider, capitals) <==> capitals == Upper(a.provider)
      ensures UpperCaseOf(b.provider, capitals) <==> capitals == Upper(b.provider)
    {
      UpperExactly(a.provider, capitals);
      UpperExactly(b.provider, capitals);
    }
  }

  // Letter case folds the long s, two bytes of UTF-8, to the letter S. No other
  // character outside ASCII folds to a character of the name.
  function FoldedName(name: string): string {
    if name == [] then []
    else if name[0] as int == 0xC5 && |name| > 1 && name[1] as int == 0xBF then ['S'] + FoldedName(name[2..])
    else [UpperByte(name[0])] + FoldedName(name[1..])
  }

  // The one tunnel cipher, in any letter case.
  predicate SupportedCipher(name: string) {
    FoldedName(name) == Upper(TUNNEL_METHOD)
  }

  // ---------- the names of the cipher ----------

  // The character itself, or its capital.
  ghost predicate EitherCase(c: char, wanted: char) {
    c == wanted || Capital(wanted, c)
  }

  ghost predicate SpelledFrom(name: string, k: nat)
    requires k <= 11
  {
    |name| == 11 - k && forall i | 0 <= i < |name| :: EitherCase(name[i], "aes-256-cfb"[k + i])
  }

  // The letters of the name in any case, where the two bytes of the long s may
  // stand for the s.
  ghost predicate CipherName(name: string) {
    || SpelledFrom(name, 0)
    || (|name| == 12 && name[2] as int == 0xC5 && name[3] as int == 0xBF && SpelledFrom(name[4..], 3)
        && EitherCase(name[0], 'a') && EitherCase(name[1], 'e'))
  }

  lemma EitherCaseExactly(c: char, k: nat)
    requires k < 11
    ensures "aes-256-cfb"[k] as int < 128 && UpperByte("aes-256-cfb"[k]) == "AES-256-CFB"[k]
    ensures EitherCase(c, "aes-256-cfb"[k]) <==> UpperByte(c) == "AES-256-CFB"[k]
  {
    CapitalExactly("aes-256-cfb"[k], c);
  }

  lemma CipherUpper()
    ensures Upper(TUNNEL_METHOD) == "AES-256-CFB"
  {
    forall k | 0 <= k < 11
      ensures Upper(TUNNEL_METHOD)[k] == "AES-256-CFB"[k]
    {
      EitherCaseExactly('a', k);
    }
  }

  // Behind the s there is no character that two bytes could stand for.
  lemma {:induction false} FoldedBehind(name: string, k: nat)
    requires 3 <= k <= 11
    ensures FoldedName(name) == "AES-256-CFB"[k..] <==> SpelledFrom(name, k)
    decreases 11 - k
  {
    var rest := "AES-256-CFB"[k..];
    if k < 11 && name != "" {
      EitherCaseExactly(name[0], k);
      assert rest == [rest[0]] + "AES-256-CFB"[k + 1..] && rest[0] == "AES-256-CFB"[k];
      FoldedBehind(name[1..], k + 1);
      assert "AES-256-CFB"[k] != 'S' by { NoLaterS(k); }
      assert name[0] as int == 0xC5 ==> UpperByte(name[0]) as int == 0xC5;
      SpelledNext(name, k);
      FoldedNext(name, rest[0], "AES-256-CFB"[k + 1..]);
    }
  }

  lemma NoLaterS(k: nat)
    requires 3 <= k < 11
    ensures "AES-256-CFB"[k] != 'S'
  {
  }

  lemma SpelledNext(name: string, k: nat)
    requires k < 11 && name != ""
    ensures SpelledFrom(name, k) <==> EitherCase(name[0], "aes-256-cfb"[k]) && SpelledFrom(name[1..], k + 1)
  {
    if EitherCase(name[0], "aes-256-cfb"[k]) && SpelledFrom(name[1..], k + 1) {
      forall i | 0 <= i < |name|
        ensures EitherCase(name[i], "aes-256-cfb"[k + i])
      {
        assert i > 0 ==> name[i] == name[1..][i - 1] && "aes-256-cfb"[k + i] == "aes-256-cfb"[k + 1 + (i - 1)];
      }
    }
    if SpelledFrom(name, k) {
      forall i | 0 <= i < |name[1..]|
        ensures EitherCase(name[1..][i], "aes-256-cfb"[k + 1 + i])
      {
        assert EitherCase(name[i + 1], "aes-256-cfb"[k + (i + 1)]);
      }
    }
  }

  // One character of a folded name that is not an S comes from one character.
  lemma FoldedNext(name: string, first: char, rest: string)
    requires name != ""
    ensures first != 'S' ==>
              (FoldedName(name) == [first] + rest <==>
               UpperByte(name[0]) == first && FoldedName(name[1..]) == rest
               && !(name[0] as int == 0xC5 && |name| > 1 && name[1] as int == 0xBF))
    ensures first == 'S' ==>
              (FoldedName(name) == [first] + rest <==>
               || (UpperByte(name[0]) == 'S' && FoldedName(name[1..]) == rest)
               || (|name| > 1 && name[0] as int == 0xC5 && name[1] as int == 0xBF && FoldedName(name[2..]) == rest))
  {
    var long := name[0] as int == 0xC5 && |name| > 1 && name[1] as int == 0xBF;
    var folded := FoldedName(name);
    assert folded[0] == (if long then 'S' else UpperByte(name[0]));
    assert folded[1..] == if long then FoldedName(name[2..]) else FoldedName(name[1..]);
    assert folded == [folded[0]] + folded[1..];
    assert ([first] + rest)[0] == first && ([first] + rest)[1..] == rest;
    assert name[0] as int == 0xC5 ==> UpperByte(name[0]) as int == 0xC5;
  }

  ghost predicate LongS(s: string) {
    |s| > 1 && s[0] as int == 0xC5 && s[1] as int == 0xBF
  }

  // From the s on.
  ghost predicate FromS(s: string) {
    SpelledFrom(s, 2) || (LongS(s) && SpelledFrom(s[2..], 3))
  }

  lemma FoldedFromS(s: string)
    ensures FoldedName(s) == "S-256-CFB" <==> FromS(s)
  {
    var behind := "-256-CFB";
    assert behind == "AES-256-CFB"[3..] && "S-256-CFB" == ['S'] + behind;
    if s != "" {
      FoldedNext(s, 'S', behind);
      FoldedBehind(s[1..], 3);
      if LongS(s) {
        FoldedBehind(s[2..], 3);
      }
      SpelledNext(s, 2);
      EitherCaseExactly(s[0], 2);
    }
  }

  lemma FoldedFromE(s: string)
    ensures FoldedName(s) == "ES-256-CFB" <==> s != "" && EitherCase(s[0], 'e') && FromS(s[1..])
  {
    assert "ES-256-CFB" == ['E'] + "S-256-CFB";
    if s != "" {
      FoldedNext(s, 'E', "S-256-CFB");
      FoldedFromS(s[1..]);
      EitherCaseExactly(s[0], 1);
    }
  }

  lemma FoldedFromA(s: string)
    ensures SupportedCipher(s) <==>
              |s| > 1 && EitherCase(s[0], 'a') && EitherCase(s[1], 'e') && FromS(s[1..][1..])
  {
    CipherUpper();
    assert "AES-256-CFB" == ['A'] + "ES-256-CFB";
    if s != "" {
      FoldedNext(s, 'A', "ES-256-CFB");
      FoldedFromE(s[1..]);
      EitherCaseExactly(s[0], 0);
    }
  }

  // The names that the cipher check accepts.
  lemma SupportedExactly(name: string)
    ensures SupportedCipher(name) <==> CipherName(name)
  {
    FoldedFromA(name);
    if |name| > 1 {
      SpelledNext(name, 0);
      SpelledNext(name[1..], 1);
      var s := name[1..][1..];
      assert s == name[2..];
      if |s| > 1 {
        assert s[0] == name[2] && s[1] == name[3] && s[2..] == name[4..];
      }
    }
  }

  // For ASCII names: eleven characters, each the one of the name or its capital.
  lemma SupportedAscii(name: string)
    requires forall c | c in name :: c as int < 128
    ensures SupportedCipher(name) <==>
              |name| == 11 && forall i | 0 <= i < 11 :: EitherCase(name[i], "aes-256-cfb"[i])
  {
    SupportedExactly(name);
    if |name| > 2 {
      assert name[2] in name;
    }
  }

  // ---------- the handler's steps ----------

  function Refuse(h: Handler): Handler {
    h.(at := Closed)
  }

  // Read the registry pointer and check the credentials against it.
  function Load(p: Platform, h: Handler, socks: Registry, next: Place): Handler {
    if socks.Authenticate(p, h.username, h.password).None? then Refuse(h.(registry := Some(socks)))
    else h.(registry := Some(socks), at := next)
  }

  function Resolve(h: Handler, m: ManagerState): Option<TunnelPin> {
    if h.registry.None? then None
    else
      var r := CompactPin(m, h.username, h.registry.value.generation, h.now);
      if r.Ok? && r.value.node.TunnelEligible() then Some(r.value) else None
  }

  // The resolution of a round, which all but the first compare with the one before.
  function Settle(p: Platform, h: Handler, m: ManagerState, index: nat, next: Place): Handler {
    var pin := Resolve(h, m);
    if pin.None? || (h.Pin().Some? && !Confirms(p, h.Pin().value, pin.value)) then Refuse(h)
    else h.(rounds := h.rounds + [Round(index, h.registry.value, h.now, pin.value)], at := next)
  }

  // The registry is still the one loaded in this round.
  function Recheck(h: Handler, socks: Registry, next: Place): Handler {
    if h.registry.None? || socks.id != h.registry.value.id then Refuse(h) else h.(at := next)
  }

  // One step of the handler in the current shared state; index is the position
  // of the step in the run.
  function Step(p: Platform, h: Handler, c: Control, now: Time, index: nat): Handler {
    match h.at
    case Greeting => h.(now := now, at := LoadFirst)
    case LoadFirst => Load(p, h, c.socks, PinFirst)
    case PinFirst => Settle(p, h, c.m, index, AwaitRequest)
    case AwaitRequest => h.(now := now, at := LoadAgain)
    case LoadAgain => Load(p, h, c.socks, PinAgain)
    case PinAgain => Settle(p, h, c.m, index, RecheckAgain)
    case RecheckAgain => Recheck(h, c.socks, Dialling)
    case Dialling =>
      if h.Pin().None? || !SupportedCipher(h.Pin().value.session.tunnelMethod) then Refuse(h)
      else h.(dialled := Some(h.Pin().value.node), sent := Some(h.Pin().value.session), at := Acknowledging)
    case Acknowledging => h.(now := now, at := SessionFinal)
    case SessionFinal =>
      if h.Pin().None? || !SessionCurrentPin(c.m, h.Pin().value, h.now) then Refuse(h)
      else h.(confirmed := Some((index, h.now)), at := LoadFinal)
    case LoadFinal => Load(p, h, c.socks, PinFinal)
    case PinFinal => Settle(p, h, c.m, index, RecheckFinal)
    case RecheckFinal => Recheck(h, c.socks, Replied)
    case Replied => h
    case Closed => h
  }

  // ---------- runs ----------

  datatype Event =
    | Tick(now: Time)
    | ControlChange(change: Change)
    | Credentials(username: string, password: string)
    | HandlerStep
    | Hangup

  ghost predicate Next(p: Platform, w: World, event: Event, index: nat, w': World) {
    match event
    case Tick(now) => w.now <= now && w' == w.(now := now)
    case ControlChange(change) => Changes(p, w.control, change, w'.control) && w' == w.(control := w'.control)
    case Credentials(username, password) => w.handler.at == Greeting
        && w' == w.(handler := w.handler.(username := username, password := password))
    case HandlerStep => w' == w.(handler := Step(p, w.handler, w.control, w.now, index))
    // Any failing read, write, dial or handshake ends in a closed connection.
    case Hangup => w.handler.at != Replied && w' == w.(handler := Refuse(w.handler))
  }

  ghost predicate IsRun(p: Platform, run: seq<World>, events: seq<Event>) {
    && |run| == |events| + 1 && Sound(p, run[0].control) && run[0].handler == CONNECTED
    && forall i | 0 <= i < |events| :: Next(p, run[i], events[i], i, run[i + 1])
  }

  // ---------- what a resolution means ----------

  // A tunnel can go to the node.
  ghost predicate Usable(n: Node) {
    n.eligible && !n.profile.OtherProfile? && |n.host| > 0 && n.port > 0 && IsWifiin(n.provider)
  }

  // A selector and the password issued for it under a key.
  ghost predicate Credited(p: Platform, proxyKey: Key, username: string, password: string) {
    && |username| == 18 && username[0] == 'n' && username[1] == '_'
    && (forall i | 2 <= i < 18 :: username[i] in URL_ALPHABET)
    && |password| == 26 && (forall i | 2 <= i < 26 :: password[i] in URL_ALPHABET)
    && password == "p_" + p.passwordTag(proxyKey, username)
  }

  lemma CreditedExactly(p: Platform, reg: Registry, username: string, password: string)
    ensures reg.Authenticate(p, username, password) ==
            if Credited(p, reg.proxyKey, username, password) then Some(reg.generation) else None
  {
    var expected := PasswordFor(p, reg.proxyKey, username);
    assert expected[..2] == "p_";
    ShapeExactly(username, 18);
    ShapeExactly(password, 26);
  }

  lemma ShapeExactly(s: string, length: nat)
    requires 2 <= length
    ensures |s| == length ==>
              (Base64Url(s[2..]) <==> forall i | 2 <= i < length :: s[i] in URL_ALPHABET)
              && s[..2] == [s[0], s[1]]
  {
    if |s| == length {
      Base64UrlExactly(s[2..]);
      assert forall i | 2 <= i < length :: s[i] == s[2..][i - 2];
      assert forall c | c in s[2..] :: exists i :: 2 <= i < length && s[i] == c;
    }
  }

  // At the moment of a round: the selector was live under the generation that
  // authenticated it, which is the standing one, keys included; it named a node a
  // tunnel can go to; and the session of that node's profile was the current one,
  // of the account bound to the generation.
  ghost predicate Authorised(p: Platform, w: World, username: string, password: string, r: Round) {
    var (m, g) := (w.control.m, w.control.Standing());
    && r.registry.Holds(g) && Credited(p, g.proxyKey, username, password)
    && PinFor(m, username, g.number, r.now, r.pin) && Usable(r.pin.node)
    && BoundTo(p, g, m.key, r.pin.session.userID)
    && r.now <= w.now
  }

  // Two rounds resolve the same node and the same session.
  ghost predicate Repeats(p: Platform, earlier: Round, later: Round) {
    && earlier.pin.expiresAt == later.pin.expiresAt && earlier.pin.session == later.pin.session
    && SameNode(p, earlier.pin.node, later.pin.node)
  }

  // ---------- the invariant of a handler ----------

  predicate Loaded(p: Platform, w: World) {
    var h := w.handler;
    h.registry.Some? && Faithful(w.control, h.registry.value)
    && h.registry.value.Authenticate(p, h.username, h.password) == Some(h.registry.value.generation)
  }

  // Authorised at its moment, or under a registry that is gone for good.
  ghost predicate RoundStands(p: Platform, run: seq<World>, i: nat, r: Round)
    requires i < |run|
  {
    var h := run[i].handler;
    r.index < i && (Abandoned(run[i].control, r.registry) || Authorised(p, run[r.index], h.username, h.password, r))
  }

  ghost predicate Kept(p: Platform, run: seq<World>, i: nat, r: Round)
    requires i < |run|
  {
    r.index < i && Authorised(p, run[r.index], run[i].handler.username, run[i].handler.password, r)
  }

  ghost predicate RoundsStand(p: Platform, run: seq<World>, i: nat)
    requires i < |run|
  {
    var h := run[i].handler;
    && (h.at != Closed ==> |h.rounds| == h.at.Rounds()) && |h.rounds| <= 3
    && (forall k | 0 <= k < |h.rounds| :: RoundStands(p, run, i, h.rounds[k]))
    && (forall k | 0 < k < |h.rounds| ::
          Repeats(p, h.rounds[k - 1], h.rounds[k]) && h.rounds[k - 1].index < h.rounds[k].index)
  }

  // The registry of the last round is the one loaded in it.
  predicate LastLoaded(h: Handler) {
    h.at.RecheckAgain? || h.at.RecheckFinal? ==> h.rounds != [] && h.registry == Some(h.rounds[|h.rounds| - 1].registry)
  }

  // What went out is what the second round resolved, under a supported cipher.
  ghost predicate SentOut(p: Platform, run: seq<World>, i: nat)
    requires i < |run|
  {
    var h := run[i].handler;
    && (h.at.PastRecheck() || h.sent.Some? ==> |h.rounds| >= 2 && Kept(p, run, i, h.rounds[1]))
    && (h.at.PastDial() ==> h.sent.Some?)
    && (h.sent.Some? ==>
          h.sent == Some(h.rounds[1].pin.session) && h.dialled == Some(h.rounds[1].pin.node)
          && CipherName(h.sent.value.tunnelMethod))
  }

  // Behind the acknowledgement the session was still the current one.
  ghost predicate Confirmed(p: Platform, run: seq<World>, i: nat)
    requires i < |run|
  {
    var h := run[i].handler;
    && (h.at.PastConfirmation() ==> h.confirmed.Some?)
    && (h.confirmed.Some? ==>
          && |h.rounds| >= 2 && h.rounds[1].index < h.confirmed.value.0 < i
          && CurrentAt(run[h.confirmed.value.0], h.rounds[1].pin, h.confirmed.value.1)
          && (|h.rounds| == 3 ==> h.confirmed.value.0 < h.rounds[2].index && h.confirmed.value.1 == h.rounds[2].now)
          && (h.at == LoadFinal || h.at == PinFinal ==> h.now == h.confirmed.value.1))
  }

  // The session of a pin is the one held, for the same time, and has not run out.
  ghost predicate CurrentAt(w: World, pin: TunnelPin, now: Time) {
    var m := w.control.m;
    && m.phase in {ServiceState.Ready, Degraded, Syncing} && m.snapshot.Some? && m.snapshot.value.sessions.Valid()
    && 0 < m.snapshot.value.createdAt <= now < m.snapshot.value.expiresAt == pin.expiresAt
    && AuthorityOf(m.snapshot.value.sessions, pin.node.profile, pin.session)
  }

  ghost predicate HandlerInv(p: Platform, run: seq<World>, i: nat)
    requires i < |run|
  {
    var h := run[i].handler;
    && h.now <= run[i].now && (h.at.PastLoad() ==> Loaded(p, run[i])) && LastLoaded(h)
    && RoundsStand(p, run, i) && SentOut(p, run, i) && Confirmed(p, run, i)
    && (h.at == Replied ==> |h.rounds| == 3 && Kept(p, run, i, h.rounds[2]))
  }

  // At a resolution the authenticating registry is either still in play or gone
  // for good.
  lemma ResolvedOrAbandoned(p: Platform, w: World, index: nat)
    requires Sound(p, w.control) && Loaded(p, w) && w.handler.now <= w.now && Resolve(w.handler, w.control.m).Some?
    ensures var h := w.handler;
            var r := Round(index, h.registry.value, h.now, Resolve(h, w.control.m).value);
            Abandoned(w.control, r.registry) || Authorised(p, w, h.username, h.password, r)
  {
    var h := w.handler;
    var pin := Resolve(h, w.control.m).value;
    if w.control.Alive(h.registry.value.id) {
      PinUnderStanding(p, w.control, h.registry.value, h.username, h.now);
      PinExactly(w.control.m, h.username, h.registry.value.generation, h.now, pin);
      CreditedExactly(p, h.registry.value, h.username, h.password);
      TunnelEligibleExactly(pin.node);
    }
  }

  // ---------- one step later ----------

  // What a step leaves as it is, stays as it was; the control may have changed.
  lemma RoundLater(p: Platform, run: seq<World>, i: nat, r: Round)
    requires i + 1 < |run| && RoundStands(p, run, i, r)
    requires run[i + 1].handler.username == run[i].handler.username
             && run[i + 1].handler.password == run[i].handler.password
    requires Abandoned(run[i].control, r.registry) ==> Abandoned(run[i + 1].control, r.registry)
    ensures RoundStands(p, run, i + 1, r)
  {
  }

  // Everything a handler has on record.
  predicate SameRecord(h: Handler, h': Handler) {
    && h'.username == h.username && h'.password == h.password && h'.rounds == h.rounds
    && h'.dialled == h.dialled && h'.sent == h.sent && h'.confirmed == h.confirmed
  }

  lemma RoundsLater(p: Platform, run: seq<World>, i: nat)
    requires i + 1 < |run| && RoundsStand(p, run, i)
    requires SameRecord(run[i].handler, run[i + 1].handler)
    requires forall r | Abandoned(run[i].control, r) :: Abandoned(run[i + 1].control, r)
    requires run[i + 1].handler.at != Closed ==> |run[i].handler.rounds| == run[i + 1].handler.at.Rounds()
    ensures RoundsStand(p, run, i + 1)
  {
    var h := run[i].handler;
    forall k | 0 <= k < |h.rounds|
      ensures RoundStands(p, run, i + 1, h.rounds[k])
    {
      RoundLater(p, run, i, h.rounds[k]);
    }
  }

  lemma SentLater(p: Platform, run: seq<World>, i: nat)
    requires i + 1 < |run| && SentOut(p, run, i) && SameRecord(run[i].handler, run[i + 1].handler)
    requires var (at, at') := (run[i].handler.at, run[i + 1].handler.at);
             (at'.PastRecheck() ==> at.PastRecheck()) && (at'.PastDial() ==> at.PastDial())
    ensures SentOut(p, run, i + 1)
  {
  }

  lemma ConfirmedLater(p: Platform, run: seq<World>, i: nat)
    requires i + 1 < |run| && Confirmed(p, run, i) && SameRecord(run[i].handler, run[i + 1].handler)
    requires var (h, h') := (run[i].handler, run[i + 1].handler);
             && (h'.at.PastConfirmation() ==> h.at.PastConfirmation())
             && (h'.at == LoadFinal || h'.at == PinFinal ==> (h.at == LoadFinal || h.at == PinFinal) && h'.now == h.now)
    ensures Confirmed(p, run, i + 1)
  {
  }

  // A handler that is where it was keeps what it has, whatever changes around it;
  // so does one that is closed.
  lemma OthersAdvance(p: Platform, run: seq<World>, i: nat)
    requires i + 1 < |run| && HandlerInv(p, run, i)
    requires run[i].now <= run[i + 1].now
    requires var (h, h') := (run[i].handler, run[i + 1].handler); h' == h || h' == h.(at := Closed)
    requires forall r | Abandoned(run[i].control, r) :: Abandoned(run[i + 1].control, r)
    requires forall r | Faithful(run[i].control, r) :: Faithful(run[i + 1].control, r)
    ensures HandlerInv(p, run, i + 1)
  {
    RoundsLater(p, run, i);
    SentLater(p, run, i);
    ConfirmedLater(p, run, i);
  }

  // Reading the clock or the registry.
  lemma ReadAdvances(p: Platform, run: seq<World>, i: nat)
    requires i + 1 < |run| && Sound(p, run[i].control) && HandlerInv(p, run, i)
    requires var at := run[i].handler.at;
             at.Greeting? || at.LoadFirst? || at.AwaitRequest? || at.LoadAgain? || at.Acknowledging? || at.LoadFinal?
    requires run[i + 1] == run[i].(handler := Step(p, run[i].handler, run[i].control, run[i].now, i))
    ensures HandlerInv(p, run, i + 1)
  {
    ReadKeeps(p, run[i], i, run[i + 1]);
    RoundsLater(p, run, i);
    SentLater(p, run, i);
    ConfirmedLater(p, run, i);
  }

  lemma ReadKeeps(p: Platform, w: World, index: nat, w': World)
    requires Sound(p, w.control) && w.handler.now <= w.now
    requires var at := w.handler.at;
             at.Greeting? || at.LoadFirst? || at.AwaitRequest? || at.LoadAgain? || at.Acknowledging? || at.LoadFinal?
    requires w' == w.(handler := Step(p, w.handler, w.control, w.now, index))
    ensures var (h, h') := (w.handler, w'.handler);
            && SameRecord(h, h') && h'.now <= w'.now && (h'.at.PastLoad() ==> Loaded(p, w'))
            && (h'.at == Closed || h'.at.Rounds() == h.at.Rounds())
            && (h'.at == PinFinal ==> h'.now == h.now) && !h'.at.RecheckAgain? && !h'.at.RecheckFinal?
            && (h'.at.PastRecheck() ==> h.at.PastRecheck()) && (h'.at.PastDial() ==> h.at.PastDial())
            && (h'.at.PastConfirmation() ==> h.at == LoadFinal && h'.at == PinFinal) && h'.at != Replied
  {
  }

  // A resolution that goes on adds a round that repeats the one before.
  lemma SettleKeeps(p: Platform, w: World, index: nat, next: Place, h': Handler)
    requires h' == Settle(p, w.handler, w.control.m, index, next) && h'.at == next != Closed
    ensures w.handler.registry.Some? && Resolve(w.handler, w.control.m).Some?
    ensures var h := w.handler;
            var r := Round(index, h.registry.value, h.now, Resolve(h, w.control.m).value);
            && h' == h.(rounds := h.rounds + [r], at := next)
            && (h.rounds != [] ==> Repeats(p, h.rounds[|h.rounds| - 1], r))
  {
    var h := w.handler;
    if h.rounds != [] {
      SameNodeExactly(p, h.Pin().value.node, Resolve(h, w.control.m).value.node);
    }
  }

  // A further round stands beside those before it.
  lemma RoundsGrow(p: Platform, run: seq<World>, i: nat, r: Round)
    requires i + 1 < |run| && RoundsStand(p, run, i) && r.index == i
    requires var (h, h') := (run[i].handler, run[i + 1].handler);
             && h'.rounds == h.rounds + [r] && h'.username == h.username && h'.password == h.password
             && h.at != Closed && h'.at != Closed && h'.at.Rounds() == h.at.Rounds() + 1
             && (h.rounds != [] ==> Repeats(p, h.rounds[|h.rounds| - 1], r))
    requires run[i + 1].control == run[i].control
    requires RoundStands(p, run, i + 1, r)
    ensures RoundsStand(p, run, i + 1)
  {
    var (h, h') := (run[i].handler, run[i + 1].handler);
    forall k | 0 <= k < |h'.rounds|
      ensures RoundStands(p, run, i + 1, h'.rounds[k])
    {
      if k < |h.rounds| {
        assert h'.rounds[k] == h.rounds[k];
        RoundLater(p, run, i, h.rounds[k]);
      }
    }
    forall k | 0 < k < |h'.rounds|
      ensures Repeats(p, h'.rounds[k - 1], h'.rounds[k]) && h'.rounds[k - 1].index < h'.rounds[k].index
    {
      assert h'.rounds[k - 1] == h.rounds[k - 1] && RoundStands(p, run, i, h.rounds[k - 1]);
    }
  }

  lemma SentGrows(p: Platform, run: seq<World>, i: nat)
    requires i + 1 < |run| && SentOut(p, run, i)
    requires var (h, h') := (run[i].handler, run[i + 1].handler);
             && h.rounds <= h'.rounds && h'.username == h.username && h'.password == h.password
             && h'.dialled == h.dialled && h'.sent == h.sent
             && (h'.at.PastRecheck() ==> h.at.PastRecheck()) && (h'.at.PastDial() ==> h.at.PastDial())
    ensures SentOut(p, run, i + 1)
  {
  }

  lemma ConfirmedGrows(p: Platform, run: seq<World>, i: nat, r: Round)
    requires i + 1 < |run| && Confirmed(p, run, i) && r.index == i && r.now == run[i].handler.now
    requires var (h, h') := (run[i].handler, run[i + 1].handler);
             && h'.rounds == h.rounds + [r] && h'.confirmed == h.confirmed
             && (h'.at.PastConfirmation() ==> h.at.PastConfirmation()) && h'.at != LoadFinal && h'.at != PinFinal
             && (h.confirmed.Some? ==> h.at == PinFinal && |h.rounds| == 2)
    ensures Confirmed(p, run, i + 1)
  {
  }

  lemma SettleAdvances(p: Platform, run: seq<World>, i: nat, r: Round)
    requires i + 1 < |run| && Sound(p, run[i].control) && HandlerInv(p, run, i)
    requires run[i].handler.at in {PinFirst, PinAgain, PinFinal} && run[i + 1].handler.at != Closed
    requires run[i + 1] == run[i].(handler := run[i].handler.(rounds := run[i].handler.rounds + [r],
                                                               at := AfterPin(run[i].handler.at)))
    requires var h := run[i].handler;
             && r.index == i && r.now == h.now && h.registry == Some(r.registry)
             && (h.rounds != [] ==> Repeats(p, h.rounds[|h.rounds| - 1], r))
    requires Abandoned(run[i].control, r.registry)
             || Authorised(p, run[i], run[i].handler.username, run[i].handler.password, r)
    ensures HandlerInv(p, run, i + 1)
  {
    RoundsGrow(p, run, i, r);
    SentGrows(p, run, i);
    ConfirmedEarly(p, run, i);
    ConfirmedGrows(p, run, i, r);
  }

  // Before the confirmation there is none on record.
  lemma ConfirmedEarly(p: Platform, run: seq<World>, i: nat)
    requires i < |run| && RoundsStand(p, run, i) && Confirmed(p, run, i)
    ensures run[i].handler.at in {PinFirst, PinAgain} ==> run[i].handler.confirmed.None?
    ensures run[i].handler.at == PinFinal ==> |run[i].handler.rounds| == 2
  {
  }

  // Whoever passes the recheck has not resolved under an abandoned registry.
  lemma RecheckKeeps(p: Platform, run: seq<World>, i: nat)
    requires i < |run| && RoundsStand(p, run, i) && LastLoaded(run[i].handler)
    requires run[i].handler.at.RecheckAgain? || run[i].handler.at.RecheckFinal?
    requires run[i].handler.registry.Some? && run[i].control.socks.id == run[i].handler.registry.value.id
    ensures var h := run[i].handler;
            |h.rounds| == h.at.Rounds() && Kept(p, run, i, h.rounds[|h.rounds| - 1])
  {
    var h := run[i].handler;
    assert run[i].control.Alive(h.registry.value.id);
    assert RoundStands(p, run, i, h.rounds[|h.rounds| - 1]);
  }

  lemma SecondRecheckAdvances(p: Platform, run: seq<World>, i: nat)
    requires i + 1 < |run| && HandlerInv(p, run, i) && run[i].handler.at.RecheckAgain?
    requires run[i + 1] == run[i].(handler := run[i].handler.(at := Dialling))
    requires run[i].handler.registry.Some? && run[i].control.socks.id == run[i].handler.registry.value.id
    ensures HandlerInv(p, run, i + 1)
  {
    RecheckKeeps(p, run, i);
    RecordedLater(p, run, i);
    ConfirmedLater(p, run, i);
    NewlyRechecked(p, run, i);
  }

  lemma FinalRecheckAdvances(p: Platform, run: seq<World>, i: nat)
    requires i + 1 < |run| && HandlerInv(p, run, i) && run[i].handler.at.RecheckFinal?
    requires run[i + 1] == run[i].(handler := run[i].handler.(at := Replied))
    requires run[i].handler.registry.Some? && run[i].control.socks.id == run[i].handler.registry.value.id
    ensures HandlerInv(p, run, i + 1)
  {
    RecheckKeeps(p, run, i);
    RecordedLater(p, run, i);
    ConfirmedLater(p, run, i);
    SentLater(p, run, i);
  }

  lemma NewlyRechecked(p: Platform, run: seq<World>, i: nat)
    requires i + 1 < |run| && SentOut(p, run, i) && run[i].handler.at.RecheckAgain?
    requires |run[i].handler.rounds| == 2 && Kept(p, run, i, run[i].handler.rounds[1])
    requires run[i + 1].handler == run[i].handler.(at := Dialling)
    ensures SentOut(p, run, i + 1)
  {
  }

  lemma DialAdvances(p: Platform, run: seq<World>, i: nat)
    requires i + 1 < |run| && HandlerInv(p, run, i)
    requires run[i].handler.at.Dialling? && run[i].handler.Pin().Some?
    requires var pin := run[i].handler.Pin().value;
             && CipherName(pin.session.tunnelMethod)
             && run[i + 1] == run[i].(handler := run[i].handler.(dialled := Some(pin.node), sent := Some(pin.session),
                                                                 at := Acknowledging))
    ensures HandlerInv(p, run, i + 1)
  {
    RecordedLater(p, run, i);
  }

  lemma ConfirmAdvances(p: Platform, run: seq<World>, i: nat)
    requires i + 1 < |run| && HandlerInv(p, run, i)
    requires run[i].handler.at.SessionFinal? && run[i].handler.Pin().Some?
    requires CurrentAt(run[i], run[i].handler.Pin().value, run[i].handler.now)
    requires run[i + 1] == run[i].(handler := run[i].handler.(confirmed := Some((i, run[i].handler.now)),
                                                               at := LoadFinal))
    ensures HandlerInv(p, run, i + 1)
  {
    RecordedLater(p, run, i);
    SentGrows(p, run, i);
    NewlyConfirmed(p, run, i);
  }

  lemma NewlyConfirmed(p: Platform, run: seq<World>, i: nat)
    requires i + 1 < |run| && RoundsStand(p, run, i) && run[i].handler.at.SessionFinal?
    requires run[i].handler.Pin().Some? && CurrentAt(run[i], run[i].handler.Pin().value, run[i].handler.now)
    requires run[i + 1] == run[i].(handler := run[i].handler.(confirmed := Some((i, run[i].handler.now)),
                                                               at := LoadFinal))
    ensures Confirmed(p, run, i + 1)
  {
    assert RoundStands(p, run, i, run[i].handler.rounds[1]);
  }

  // The same rounds stand when something else is written down.
  lemma RecordedLater(p: Platform, run: seq<World>, i: nat)
    requires i + 1 < |run| && RoundsStand(p, run, i) && run[i + 1].control == run[i].control
    requires var (h, h') := (run[i].handler, run[i + 1].handler);
             && h'.rounds == h.rounds && h'.username == h.username && h'.password == h.password
             && h.at != Closed && h'.at != Closed && h'.at.Rounds() == h.at.Rounds()
    ensures RoundsStand(p, run, i + 1)
  {
    var h := run[i].handler;
    forall k | 0 <= k < |h.rounds|
      ensures RoundStands(p, run, i + 1, h.rounds[k])
    {
      RoundLater(p, run, i, h.rounds[k]);
    }
  }

  lemma CurrentExactly(w: World, pin: TunnelPin, now: Time)
    ensures SessionCurrentPin(w.control.m, pin, now) <==> CurrentAt(w, pin, now)
  {
    var m := w.control.m;
    if m.snapshot.Some? {
      UsableExactly(m.snapshot.value, now);
      SessionsExactly(m.snapshot.value.sessions);
      ForExactly(m.snapshot.value.sessions, pin.node.EffectiveProfile(), pin.session);
    }
  }

  lemma HandlerAdvances(p: Platform, run: seq<World>, i: nat)
    requires i + 1 < |run| && Sound(p, run[i].control) && HandlerInv(p, run, i)
    requires run[i + 1] == run[i].(handler := Step(p, run[i].handler, run[i].control, run[i].now, i))
    ensures HandlerInv(p, run, i + 1)
  {
    match run[i].handler.at
    case PinFirst | PinAgain | PinFinal => PinAdvances(p, run, i);
    case RecheckAgain | RecheckFinal => CheckAdvances(p, run, i);
    case Dialling => DialOrClose(p, run, i);
    case SessionFinal => ConfirmOrClose(p, run, i);
    case Replied | Closed => OthersAdvance(p, run, i);
    case _ => ReadAdvances(p, run, i);
  }

  lemma CheckAdvances(p: Platform, run: seq<World>, i: nat)
    requires i + 1 < |run| && HandlerInv(p, run, i)
    requires run[i].handler.at.RecheckAgain? || run[i].handler.at.RecheckFinal?
    requires run[i + 1] == run[i].(handler := Step(p, run[i].handler, run[i].control, run[i].now, i))
    ensures HandlerInv(p, run, i + 1)
  {
    RecheckStep(p, run[i].handler, run[i].control, run[i].now, i);
    if run[i + 1].handler.at == Closed {
      OthersAdvance(p, run, i);
    } else if run[i].handler.at.RecheckAgain? {
      SecondRecheckAdvances(p, run, i);
    } else {
      FinalRecheckAdvances(p, run, i);
    }
  }

  lemma DialOrClose(p: Platform, run: seq<World>, i: nat)
    requires i + 1 < |run| && HandlerInv(p, run, i) && run[i].handler.at.Dialling?
    requires run[i + 1] == run[i].(handler := Step(p, run[i].handler, run[i].control, run[i].now, i))
    ensures HandlerInv(p, run, i + 1)
  {
    DialStep(p, run[i].handler, run[i].control, run[i].now, i);
    if run[i + 1].handler.at == Closed {
      OthersAdvance(p, run, i);
    } else {
      DialAdvances(p, run, i);
    }
  }

  lemma ConfirmOrClose(p: Platform, run: seq<World>, i: nat)
    requires i + 1 < |run| && HandlerInv(p, run, i) && run[i].handler.at.SessionFinal?
    requires run[i + 1] == run[i].(handler := Step(p, run[i].handler, run[i].control, run[i].now, i))
    ensures HandlerInv(p, run, i + 1)
  {
    ConfirmStep(p, run[i], i);
    if run[i + 1].handler.at == Closed {
      OthersAdvance(p, run, i);
    } else {
      ConfirmAdvances(p, run, i);
    }
  }

  lemma RecheckStep(p: Platform, h: Handler, c: Control, now: Time, index: nat)
    requires h.at.RecheckAgain? || h.at.RecheckFinal?
    ensures var h' := Step(p, h, c, now, index);
            if h.registry.Some? && c.socks.id == h.registry.value.id
            then h' == h.(at := if h.at.RecheckAgain? then Dialling else Replied) else h' == h.(at := Closed)
  {
  }

  lemma DialStep(p: Platform, h: Handler, c: Control, now: Time, index: nat)
    requires h.at.Dialling?
    ensures var h' := Step(p, h, c, now, index);
            if h.Pin().Some? && CipherName(h.Pin().value.session.tunnelMethod)
            then h' == h.(dialled := Some(h.Pin().value.node), sent := Some(h.Pin().value.session), at := Acknowledging)
            else h' == h.(at := Closed)
  {
    if h.Pin().Some? {
      SupportedExactly(h.Pin().value.session.tunnelMethod);
    }
  }

  lemma ConfirmStep(p: Platform, w: World, index: nat)
    requires w.handler.at.SessionFinal?
    ensures var h := w.handler;
            var h' := Step(p, h, w.control, w.now, index);
            if h.Pin().Some? && CurrentAt(w, h.Pin().value, h.now)
            then h' == h.(confirmed := Some((index, h.now)), at := LoadFinal) else h' == h.(at := Closed)
  {
    if w.handler.Pin().Some? {
      CurrentExactly(w, w.handler.Pin().value, w.handler.now);
    }
  }

  lemma PinAdvances(p: Platform, run: seq<World>, i: nat)
    requires i + 1 < |run| && Sound(p, run[i].control) && HandlerInv(p, run, i)
    requires run[i].handler.at in {PinFirst, PinAgain, PinFinal}
    requires run[i + 1] == run[i].(handler := Step(p, run[i].handler, run[i].control, run[i].now, i))
    ensures HandlerInv(p, run, i + 1)
  {
    var (h, h') := (run[i].handler, run[i + 1].handler);
    assert h' == Settle(p, h, run[i].control.m, i, AfterPin(h.at));
    if h'.at == Closed {
      OthersAdvance(p, run, i);
    } else {
      SettleKeeps(p, run[i], i, h'.at, h');
      ResolvedOrAbandoned(p, run[i], i);
      SettleAdvances(p, run, i, Round(i, h.registry.value, h.now, Resolve(h, run[i].control.m).value));
    }
  }

  lemma NextKeepsInv(p: Platform, run: seq<World>, event: Event, i: nat)
    requires i + 1 < |run| && Sound(p, run[i].control) && HandlerInv(p, run, i)
    requires Next(p, run[i], event, i, run[i + 1])
    ensures Sound(p, run[i + 1].control) && HandlerInv(p, run, i + 1)
  {
    match event
    case ControlChange(change) =>
      ChangeKeepsSound(p, run[i].control, change, run[i + 1].control);
      forall r: Registry
        ensures Faithful(run[i].control, r) ==> Faithful(run[i + 1].control, r)
        ensures Abandoned(run[i].control, r) ==> Abandoned(run[i + 1].control, r)
      {
        ChangeKeepsRegistry(p, run[i].control, change, run[i + 1].control, r);
      }
      OthersAdvance(p, run, i);
    case HandlerStep => HandlerAdvances(p, run, i);
    case Tick(_) => OthersAdvance(p, run, i);
    case Hangup => OthersAdvance(p, run, i);
    case Credentials(_, _) =>
  }

  lemma {:induction false} InvThroughout(p: Platform, run: seq<World>, events: seq<Event>, i: nat)
    requires IsRun(p, run, events) && i < |run|
    ensures Sound(p, run[i].control) && HandlerInv(p, run, i)
  {
    if i > 0 {
      InvThroughout(p, run, events, i - 1);
      NextKeepsInv(p, run, events[i - 1], i - 1);
    }
  }

  // Whatever has been dialled, in any interleaving and however it went on: the
  // node and the session are those of a round at which everything was in order.
  lemma DialledIsAuthorised(p: Platform, run: seq<World>, events: seq<Event>, i: nat)
    requires IsRun(p, run, events) && i < |run| && run[i].handler.sent.Some?
    ensures var h := run[i].handler;
            && |h.rounds| >= 2 && h.rounds[0].index < h.rounds[1].index < i
            && Authorised(p, run[h.rounds[1].index], h.username, h.password, h.rounds[1])
            && Repeats(p, h.rounds[0], h.rounds[1])
            && h.sent == Some(h.rounds[1].pin.session) && h.dialled == Some(h.rounds[1].pin.node)
            && CipherName(h.sent.value.tunnelMethod)
  {
    InvThroughout(p, run, events, i);
  }

  // A success reply, in any interleaving: three rounds resolved the same node and
  // the same session, the dialled and the sent ones; at the last two everything
  // was in order, and in between, behind the acknowledgement, the session was
  // still the current one.
  lemma AdmittedTunnelIsAuthorised(p: Platform, run: seq<World>, events: seq<Event>, i: nat)
    requires IsRun(p, run, events) && i < |run| && run[i].handler.at == Replied
    ensures var h := run[i].handler;
            && |h.rounds| == 3 && h.confirmed.Some?
            && var (first, second, third, confirmed) := (h.rounds[0], h.rounds[1], h.rounds[2], h.confirmed.value);
            && first.index < second.index < confirmed.0 < third.index < i
            && Authorised(p, run[second.index], h.username, h.password, second)
            && CurrentAt(run[confirmed.0], second.pin, confirmed.1)
            && Authorised(p, run[third.index], h.username, h.password, third)
            && Repeats(p, first, second) && Repeats(p, second, third)
            && h.dialled == Some(second.pin.node) && h.sent == Some(second.pin.session)
            && CipherName(second.pin.session.tunnelMethod)
  {
    InvThroughout(p, run, events, i);
  }

  // The admitting moment lies after the last logout, expiry or other
  // invalidation that no commit has followed: without sessions nobody is admitted.
  lemma NobodyAdmittedWithoutSession(p: Platform, run: seq<World>, events: seq<Event>, i: nat)
    requires IsRun(p, run, events) && i < |run| && run[i].handler.at == Replied
    ensures |run[i].handler.rounds| == 3
    ensures var admitting := run[i].handler.rounds[2].index;
            admitting < i && run[admitting].control.m.HoldsSessions() && run[admitting].control.m.Serving()
  {
    AdmittedTunnelIsAuthorised(p, run, events, i);
  }

  // ---------- a handler left alone ----------

  function Alone(p: Platform, h: Handler, c: Control, now: Time, n: nat): Handler
    decreases n
  {
    if n == 0 then h else Alone(p, Step(p, h, c, now, 0), c, now, n - 1)
  }

  // The credentials are issued ones, and the selector resolves to a node that can
  // be tunnelled to and has a canonical form, with a session of the one cipher.
  ghost predicate Acceptable(p: Platform, c: Control, username: string, password: string, now: Time) {
    && Credited(p, c.socks.proxyKey, username, password)
    && exists pin ::
      && PinFor(c.m, username, c.socks.generation, now, pin)
      && Usable(pin.node) && Nameable(p, pin.node) && CipherName(pin.session.tunnelMethod)
  }

  // The same in terms of the steps.
  predicate Passes(p: Platform, h: Handler, c: Control) {
    && c.socks.Authenticate(p, h.username, h.password).Some?
    && var r := CompactPin(c.m, h.username, c.socks.generation, h.now);
    && r.Ok? && r.value.node.TunnelEligible() && SameCanonicalNode(p, r.value.node, r.value.node)
    && SupportedCipher(r.value.session.tunnelMethod)
  }

  lemma PassesExactly(p: Platform, h: Handler, c: Control)
    ensures Passes(p, h, c) <==> Acceptable(p, c, h.username, h.password, h.now)
  {
    CreditedExactly(p, c.socks, h.username, h.password);
    forall pin
      ensures CompactPin(c.m, h.username, c.socks.generation, h.now) == Ok(pin) <==>
                PinFor(c.m, h.username, c.socks.generation, h.now, pin)
    {
      PinExactly(c.m, h.username, c.socks.generation, h.now, pin);
    }
    var r := CompactPin(c.m, h.username, c.socks.generation, h.now);
    if r.Ok? {
      TunnelEligibleExactly(r.value.node);
      SameNodeExactly(p, r.value.node, r.value.node);
      SupportedExactly(r.value.session.tunnelMethod);
    }
  }

  lemma PassesPin(p: Platform, h: Handler, c: Control)
    requires h.registry == Some(c.socks) && c.socks.Authenticate(p, h.username, h.password).Some?
    requires Resolve(h, c.m) == h.Pin()
    ensures Passes(p, h, c) <==>
              && h.Pin().Some? && SameCanonicalNode(p, h.Pin().value.node, h.Pin().value.node)
              && SupportedCipher(h.Pin().value.session.tunnelMethod)
  {
  }

  lemma PassesAlike(p: Platform, a: Handler, b: Handler, c: Control)
    requires a.username == b.username && a.password == b.password && a.now == b.now
    ensures Passes(p, a, c) <==> Passes(p, b, c)
  {
  }

  lemma {:induction false} ClosedStaysClosed(p: Platform, h: Handler, c: Control, now: Time, n: nat)
    requires h.at == Closed
    ensures Alone(p, h, c, now, n) == h
  {
    if n > 0 {
      ClosedStaysClosed(p, h, c, now, n - 1);
    }
  }

  lemma AloneStep(p: Platform, h: Handler, c: Control, now: Time, n: nat, next: Handler)
    requires n > 0 && Step(p, h, c, now, 0) == next
    ensures Alone(p, h, c, now, n) == Alone(p, next, c, now, n - 1)
  {
  }

  lemma AloneRefused(p: Platform, h: Handler, c: Control, now: Time, n: nat)
    requires n > 0 && Step(p, h, c, now, 0).at == Closed
    ensures Alone(p, h, c, now, n).at == Closed
  {
    AloneStep(p, h, c, now, n, Step(p, h, c, now, 0));
    ClosedStaysClosed(p, Step(p, h, c, now, 0), c, now, n - 1);
  }

  // With nothing changing around it, a handler gets its success reply exactly
  // when the credentials and the pin behind them are acceptable: the later
  // rounds refuse only what has changed since the first.
  lemma UndisturbedHandler(p: Platform, c: Control, username: string, password: string, now: Time)
    ensures Alone(p, CONNECTED.(username := username, password := password), c, now, 13).at == Replied <==>
            Acceptable(p, c, username, password, now)
  {
    var h := CONNECTED.(username := username, password := password);
    var h1 := h.(now := now, at := LoadFirst);
    AloneStep(p, h, c, now, 13, h1);
    PassesExactly(p, h1, c);
    if c.socks.Authenticate(p, username, password).None? {
      AloneRefused(p, h1, c, now, 12);
    } else {
      var h2 := h1.(registry := Some(c.socks), at := PinFirst);
      AloneStep(p, h1, c, now, 12, h2);
      PassesAlike(p, h2, h1, c);
      FirstPin(p, h2, c, now);
    }
  }

  lemma FirstPin(p: Platform, h: Handler, c: Control, now: Time)
    requires h.at == PinFirst && h.now == now && h.registry == Some(c.socks) && h.rounds == []
    requires c.socks.Authenticate(p, h.username, h.password).Some?
    ensures Alone(p, h, c, now, 11).at == Replied <==> Passes(p, h, c)
  {
    var pin := Resolve(h, c.m);
    if pin.None? {
      AloneRefused(p, h, c, now, 11);
    } else {
      var next := h.(rounds := [Round(0, c.socks, now, pin.value)], at := AwaitRequest);
      assert [] + next.rounds == next.rounds;
      AloneStep(p, h, c, now, 11, next);
      SecondRound(p, next, c, now);
    }
  }

  lemma SecondRound(p: Platform, h: Handler, c: Control, now: Time)
    requires h.at == AwaitRequest && h.now == now && h.registry == Some(c.socks)
    requires c.socks.Authenticate(p, h.username, h.password).Some?
    requires h.Pin().Some? && Resolve(h, c.m) == h.Pin()
    ensures Alone(p, h, c, now, 10).at == Replied <==> Passes(p, h, c)
  {
    SecondLoad(p, h, c, now);
    SecondPinFrom(p, h, c, now);
  }

  lemma SecondPinFrom(p: Platform, h: Handler, c: Control, now: Time)
    requires h.now == now && h.registry == Some(c.socks)
    requires c.socks.Authenticate(p, h.username, h.password).Some?
    requires h.Pin().Some? && Resolve(h, c.m) == h.Pin()
    ensures Alone(p, h.(at := PinAgain), c, now, 8).at == Replied <==> Passes(p, h, c)
  {
    var h2 := h.(at := PinAgain);
    PassesAlike(p, h2, h, c);
    ResolvesAlike(h2, h, c.m);
    SecondPin(p, h2, c, now);
  }

  lemma ResolvesAlike(a: Handler, b: Handler, m: ManagerState)
    requires a.username == b.username && a.now == b.now && a.registry == b.registry
    ensures Resolve(a, m) == Resolve(b, m)
  {
  }

  lemma SecondLoad(p: Platform, h: Handler, c: Control, now: Time)
    requires h.at == AwaitRequest && h.now == now && h.registry == Some(c.socks)
    requires c.socks.Authenticate(p, h.username, h.password).Some?
    ensures Alone(p, h, c, now, 10) == Alone(p, h.(at := PinAgain), c, now, 8)
  {
    AloneStep(p, h, c, now, 10, h.(at := LoadAgain));
    AloneStep(p, h.(at := LoadAgain), c, now, 9, h.(at := PinAgain));
  }

  lemma SecondPin(p: Platform, h: Handler, c: Control, now: Time)
    requires h.at == PinAgain && h.now == now && h.registry == Some(c.socks)
    requires c.socks.Authenticate(p, h.username, h.password).Some?
    requires h.Pin().Some? && Resolve(h, c.m) == h.Pin()
    ensures Alone(p, h, c, now, 8).at == Replied <==> Passes(p, h, c)
  {
    var pin := h.Pin().value;
    PassesPin(p, h, c);
    if !SameCanonicalNode(p, pin.node, pin.node) {
      AloneRefused(p, h, c, now, 8);
    } else {
      var h3 := h.(rounds := h.rounds + [Round(0, c.socks, now, pin)], at := RecheckAgain);
      var h4 := h3.(at := Dialling);
      AloneStep(p, h, c, now, 8, h3);
      AloneStep(p, h3, c, now, 7, h4);
      PassesAlike(p, h4, h, c);
      DialRound(p, h4, c, now);
    }
  }

  lemma DialRound(p: Platform, h: Handler, c: Control, now: Time)
    requires h.at == Dialling && h.now == now && h.registry == Some(c.socks)
    requires c.socks.Authenticate(p, h.username, h.password).Some?
    requires h.Pin().Some? && Resolve(h, c.m) == h.Pin()
             && SameCanonicalNode(p, h.Pin().value.node, h.Pin().value.node)
    ensures Alone(p, h, c, now, 6).at == Replied <==> Passes(p, h, c)
  {
    var pin := h.Pin().value;
    PassesPin(p, h, c);
    if !SupportedCipher(pin.session.tunnelMethod) {
      AloneRefused(p, h, c, now, 6);
    } else {
      Dialled(p, h, c, now);
    }
  }

  lemma Dialled(p: Platform, h: Handler, c: Control, now: Time)
    requires h.at == Dialling && h.now == now && h.registry == Some(c.socks)
    requires c.socks.Authenticate(p, h.username, h.password).Some?
    requires h.Pin().Some? && Resolve(h, c.m) == h.Pin()
             && SameCanonicalNode(p, h.Pin().value.node, h.Pin().value.node)
             && SupportedCipher(h.Pin().value.session.tunnelMethod)
    ensures Alone(p, h, c, now, 6).at == Replied
  {
    var pin := h.Pin().value;
    var next := h.(dialled := Some(pin.node), sent := Some(pin.session), at := Acknowledging);
    AloneStep(p, h, c, now, 6, next);
    ResolvesAlike(next, h, c.m);
    FinalRound(p, next, c, now);
  }

  lemma FinalRound(p: Platform, h: Handler, c: Control, now: Time)
    requires h.at == Acknowledging && h.now == now && h.registry == Some(c.socks)
    requires c.socks.Authenticate(p, h.username, h.password).Some?
    requires h.Pin().Some? && Resolve(h, c.m) == h.Pin()
             && SameCanonicalNode(p, h.Pin().value.node, h.Pin().value.node)
    ensures Alone(p, h, c, now, 5).at == Replied
  {
    var h1 := h.(at := SessionFinal);
    var h2 := h.(confirmed := Some((0, now)), at := LoadFinal);
    AloneStep(p, h, c, now, 5, h1);
    ResolvesAlike(h1, h, c.m);
    StillCurrent(p, h1, c, now);
    AloneStep(p, h1, c, now, 4, h2);
    ResolvesAlike(h2, h, c.m);
    LastRound(p, h2, c, now);
  }

  lemma StillCurrent(p: Platform, h: Handler, c: Control, now: Time)
    requires h.at == SessionFinal && h.now == now && h.registry == Some(c.socks)
    requires h.Pin().Some? && Resolve(h, c.m) == h.Pin()
    ensures Step(p, h, c, now, 0) == h.(confirmed := Some((0, now)), at := LoadFinal)
  {
    IssuedPinIsCurrent(c.m, h.username, c.socks.generation, now);
  }

  lemma SettlesAgain(p: Platform, h: Handler, m: ManagerState, next: Place)
    requires h.registry.Some? && h.Pin().Some? && Resolve(h, m) == h.Pin()
    requires SameCanonicalNode(p, h.Pin().value.node, h.Pin().value.node)
    ensures Settle(p, h, m, 0, next) ==
            h.(rounds := h.rounds + [Round(0, h.registry.value, h.now, h.Pin().value)], at := next)
  {
  }

  lemma LastRound(p: Platform, h: Handler, c: Control, now: Time)
    requires h.at == LoadFinal && h.now == now && h.registry == Some(c.socks)
    requires c.socks.Authenticate(p, h.username, h.password).Some?
    requires h.Pin().Some? && Resolve(h, c.m) == h.Pin()
             && SameCanonicalNode(p, h.Pin().value.node, h.Pin().value.node)
    ensures Alone(p, h, c, now, 3).at == Replied
  {
    var h3 := h.(at := PinFinal);
    var h4 := h.(rounds := h.rounds + [Round(0, c.socks, now, h.Pin().value)], at := RecheckFinal);
    AloneStep(p, h, c, now, 3, h3);
    ResolvesAlike(h3, h, c.m);
    SettlesAgain(p, h3, c.m, RecheckFinal);
    AloneStep(p, h3, c, now, 2, h4);
    AloneStep(p, h4, c, now, 1, h4.(at := Replied));
  }

  // ---------- somebody is admitted ----------

  // Steps of the handler alone, from a given place of a run.
  lemma {:induction false} AloneIsRun(p: Platform, run: seq<World>, events: seq<Event>, n: nat)
    returns (more: seq<World>, steps: seq<Event>)
    requires IsRun(p, run, events)
    ensures IsRun(p, more, steps) && |more| == |run| + n
    ensures var (last, later) := (run[|run| - 1], more[|more| - 1]);
            && later.control == last.control && later.now == last.now
            && later.handler.at == Alone(p, last.handler, last.control, last.now, n).at
    decreases n
  {
    if n == 0 {
      return run, events;
    }
    var last := run[|run| - 1];
    var next := last.(handler := Step(p, last.handler, last.control, last.now, |events|));
    RunSteps(p, run, events, next);
    AloneOnce(p, last.handler, last.control, last.now, |events|, n);
    more, steps := AloneIsRun(p, run + [next], events + [HandlerStep], n - 1);
  }

  lemma RunSteps(p: Platform, run: seq<World>, events: seq<Event>, next: World)
    requires IsRun(p, run, events)
    requires var last := run[|run| - 1];
             next == last.(handler := Step(p, last.handler, last.control, last.now, |events|))
    ensures IsRun(p, run + [next], events + [HandlerStep])
  {
    assert Next(p, run[|run| - 1], HandlerStep, |events|, next);
    RunGrows(p, run, events, HandlerStep, next);
  }

  lemma AloneOnce(p: Platform, h: Handler, c: Control, now: Time, index: nat, n: nat)
    requires n > 0
    ensures Alone(p, h, c, now, n).at == Alone(p, Step(p, h, c, now, index), c, now, n - 1).at
  {
    AlikeSteps(p, h, h, c, now, 0, index);
    AloneIgnoresIndex(p, Step(p, h, c, now, 0), Step(p, h, c, now, index), c, now, n - 1);
  }

  lemma RunGrows(p: Platform, run: seq<World>, events: seq<Event>, event: Event, next: World)
    requires IsRun(p, run, events) && Next(p, run[|run| - 1], event, |events|, next)
    ensures IsRun(p, run + [next], events + [event])
  {
    var (more, steps) := (run + [next], events + [event]);
    forall i | 0 <= i < |steps|
      ensures Next(p, more[i], steps[i], i, more[i + 1])
    {
      if i < |events| {
        assert Next(p, run[i], events[i], i, run[i + 1]);
      }
    }
  }

  // Where in a run its steps are, a handler only writes down.
  predicate Alike(a: Handler, b: Handler) {
    && b.at == a.at && b.username == a.username && b.password == a.password && b.now == a.now
    && b.registry == a.registry && b.Pin() == a.Pin()
  }

  lemma {:induction false} AloneIgnoresIndex(p: Platform, a: Handler, b: Handler, c: Control, now: Time, n: nat)
    requires Alike(a, b)
    ensures Alone(p, a, c, now, n).at == Alone(p, b, c, now, n).at
    decreases n
  {
    if n > 0 {
      AlikeSteps(p, a, b, c, now, 0, 0);
      AloneIgnoresIndex(p, Step(p, a, c, now, 0), Step(p, b, c, now, 0), c, now, n - 1);
    }
  }

  lemma AlikeSteps(p: Platform, a: Handler, b: Handler, c: Control, now: Time, i: nat, j: nat)
    requires Alike(a, b)
    ensures Alike(Step(p, a, c, now, i), Step(p, b, c, now, j))
  {
    match a.at
    case PinFirst | PinAgain | PinFinal => AlikeSettles(p, a, b, c.m, i, j, AfterPin(a.at));
    case LoadFirst | LoadAgain | LoadFinal =>
    case _ =>
  }

  lemma AlikeSettles(p: Platform, a: Handler, b: Handler, m: ManagerState, i: nat, j: nat, next: Place)
    requires Alike(a, b)
    ensures Alike(Settle(p, a, m, i, next), Settle(p, b, m, j, next))
  {
    assert Resolve(a, m) == Resolve(b, m);
  }

  // Acceptable credentials are admitted in some run, from any sound state.
  lemma AcceptableIsAdmitted(p: Platform, c: Control, username: string, password: string, now: Time)
    returns (run: seq<World>, events: seq<Event>)
    requires Sound(p, c) && Acceptable(p, c, username, password, now)
    ensures IsRun(p, run, events) && run[|run| - 1].handler.at == Replied
  {
    var w := World(c, now, CONNECTED);
    var v := w.(handler := CONNECTED.(username := username, password := password));
    GreetedIsRun(p, w, username, password);
    UndisturbedHandler(p, c, username, password, now);
    run, events := AloneIsRun(p, [w, v], [Credentials(username, password)], 13);
  }

  lemma GreetedIsRun(p: Platform, w: World, username: string, password: string)
    requires Sound(p, w.control) && w.handler == CONNECTED
    ensures IsRun(p, [w, w.(handler := CONNECTED.(username := username, password := password))],
                  [Credentials(username, password)])
  {
  }
}
