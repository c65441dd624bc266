/**
 The lease-guarded service-state machine and the snapshot it publishes
 (internal/state/manager.go). The functions give each critical section as one
 step of the machine; the class is the program, proved against them.
 */
module Manager {
  import opened Foundations
  import opened StateTypes
  import opened Platform

  datatype ServiceState = SignedOut | Authenticating | Syncing | Ready | Degraded | Expired | Faulted

  datatype Operation = LoginOperation | RefreshOperation

  datatype Outcome = Succeeded | Failed | Cancelled

  datatype ManagerError =
    | AccountChanged | KeyAlreadyConfigured | InvalidSnapshot | InvalidTransition | OperationInProgress
                        | SelectorUnknown | SelectorTombstoned

  datatype ManagerState = ManagerState(phase: ServiceState, active: Option<Operation>, lease: nat,
                                       subscription: SubscriptionGeneration, key: Option<Key>,
                                       snapshot: Option<RuntimeSnapshot>)
  {
    predicate Serving() {
      phase == Ready || phase == Degraded || phase == Syncing
    }

    predicate HoldsSessions() {
      snapshot.Some? && snapshot.value.sessions.Valid()
    }
  }

  datatype TunnelPin = TunnelPin(session: SessionSecrets, expiresAt: Time, node: Node, ref: NodeRef)

  // ---------- account bindings ----------

  function BindingFor(p: Platform, key: Key, userID: string): Option<Key> {
    var canonical := p.trim(userID);
    if canonical == "" || |canonical| > 1024 || NUL in canonical || |key| != KEY_SIZE then None
    else Some(p.bindingTag(key, canonical))
  }

  predicate MatchesBinding(p: Platform, binding: Key, key: Key, userID: string) {
    |binding| == KEY_SIZE && BindingFor(p, key, userID) == Some(binding)
  }

  predicate BoundTo(p: Platform, g: SubscriptionGeneration, key: Option<Key>, userID: string) {
    key.Some? && MatchesBinding(p, g.binding, key.value, userID)
  }

  // The binding as the program computes it; the hash covers the trimmed text.
  method AccountBinding(p: Platform, key: Key, userID: string) returns (binding: Option<Key>)
    ensures binding == BindingFor(p, key, userID)
  {
    var canonical := p.trim(userID);
    if canonical == "" || |canonical| > 1024 {
      return None;
    }
    if NUL in canonical {
      return None;
    }
    if |key| != KEY_SIZE {
      return None;
    }
    return Some(p.bindingTag(key, canonical));
  }

  method MatchAccount(p: Platform, binding: Key, key: Key, userID: string) returns (same: bool)
    ensures same <==> MatchesBinding(p, binding, key, userID)
  {
    var expected := AccountBinding(p, key, userID);
    if expected.None? || |binding| != KEY_SIZE {
      return false;
    }
    return expected.value == binding;
  }

  // ---------- the steps ----------

  function SignOutLocked(m: ManagerState): ManagerState {
    m.(phase := SignedOut,
       snapshot := if m.snapshot.None? then None
                   else Some(m.snapshot.value.(sessions := WIPED, account := NO_ACCOUNT)))
  }

  function ExpireLocked(m: ManagerState, now: Time): ManagerState {
    m.(phase := Expired,
       snapshot := if m.snapshot.None? then None
                   else Some(m.snapshot.value.(expiresAt := now, sessions := WIPED)))
  }

  function SignOut(m: ManagerState): ManagerState {
    SignOutLocked(m.(active := None, lease := m.lease + 1))
  }

  function Begin(m: ManagerState, op: Operation): Result<ManagerState, ManagerError> {
    if m.active.Some? then Err(OperationInProgress)
    else if op == LoginOperation then
      if m.phase == SignedOut || m.phase == Expired || m.phase == Faulted
      then Ok(m.(phase := Authenticating, active := Some(op), lease := m.lease + 1))
      else Err(InvalidTransition)
    else
      if m.phase == Ready || m.phase == Degraded
      then Ok(m.(phase := Syncing, active := Some(op), lease := m.lease + 1))
      else Err(InvalidTransition)
  }

  function Finish(m: ManagerState, lease: nat, op: Operation, outcome: Outcome, now: Time): ManagerState {
    if m.lease != lease || m.active != Some(op) then m
    else
      var released := m.(active := None);
      if outcome == Succeeded then
        if op == LoginOperation && m.phase == Authenticating then released.(phase := Syncing) else released
      else if op == LoginOperation then SignOutLocked(released)
      else if m.HoldsSessions() then
        if m.snapshot.value.expiresAt != UNSET && m.snapshot.value.expiresAt <= now then ExpireLocked(released, now)
        else released.(phase := Degraded)
      else released.(phase := Faulted)
  }

  predicate ValidTransition(from: ServiceState, to: ServiceState) {
    match from
    case SignedOut => to == Authenticating
    case Authenticating => to in {Syncing, Ready, SignedOut, Faulted}
    case Syncing => to in {Ready, Degraded, Expired, Faulted, SignedOut}
    case Ready => to in {Syncing, Degraded, Expired, SignedOut}
    case Degraded => to in {Syncing, Ready, Expired, SignedOut, Faulted}
    case Expired => to in {Authenticating, SignedOut}
    case Faulted => to in {Authenticating, SignedOut}
  }

  function Transition(m: ManagerState, to: ServiceState): Result<ManagerState, ManagerError> {
    if ValidTransition(m.phase, to) then Ok(m.(phase := to)) else Err(InvalidTransition)
  }

  ghost predicate HasEligible(nodes: seq<Node>) {
    exists n :: n in nodes && n.TunnelEligible()
  }

  ghost function CommitProblem(p: Platform, m: ManagerState, s: RuntimeSnapshot, now: Time): Option<ManagerError> {
    if !ValidRuntimeSnapshot(s, now) || !s.sessions.Valid() || !HasEligible(s.nodes) then Some(InvalidSnapshot)
    else if m.phase !in {Authenticating, Syncing, Ready, Degraded} then Some(InvalidTransition)
    else if m.snapshot.Some? && s.generation <= m.snapshot.value.generation then Some(InvalidSnapshot)
    else if m.subscription.number == 0 || !BoundTo(p, m.subscription, m.key, s.sessions.UserID())
        then Some(AccountChanged)
    else None
  }

  function Committed(m: ManagerState, s: RuntimeSnapshot): ManagerState {
    m.(snapshot := Some(s), phase := if m.phase == Authenticating || m.phase == Syncing then Ready else m.phase)
  }

  predicate Installable(p: Platform, m: ManagerState, candidate: SubscriptionGeneration, userID: string) {
    var current := m.subscription;
    && candidate.Valid()
    && (m.phase == Authenticating || m.phase == Syncing)
    && |candidate.binding| == KEY_SIZE
    && BoundTo(p, candidate, m.key, userID)
    && if current.number == 0 then true
       else if |current.binding| == 0 || current.binding == candidate.binding then
         candidate.number == current.number && current.SameKeys(candidate)
       else
         candidate.number == current.number + 1
         && current.selectorKey != candidate.selectorKey && current.proxyKey != candidate.proxyKey
  }

  // The compensating action of an install: undo it unless something else was installed since.
  function Reinstalled(m: ManagerState, candidate: SubscriptionGeneration,
                       previous: SubscriptionGeneration): ManagerState {
    if m.subscription.Same(candidate) then m.(subscription := previous) else m
  }

  function Expire(m: ManagerState, now: Time): Result<ManagerState, ManagerError> {
    if m.phase in {Expired, Ready, Degraded, Syncing, Faulted} then Ok(ExpireLocked(m, now)) else Err(InvalidTransition)
  }

  // ---------- pins ----------

  function ResolveSelector(s: RuntimeSnapshot, selector: string, now: Time): Result<(Node, NodeRef), ManagerError> {
    if selector !in s.selectors then Err(SelectorUnknown)
    else
      var ref := s.selectors[selector];
      if ref.IsTombstoned(now) then Err(SelectorTombstoned)
      else if ref.tombstoned then Err(SelectorUnknown)
      else
        var node := FindNode(s.nodes, ref.nodeID);
        if node.None? then Err(SelectorUnknown) else Ok((node.value, ref))
  }

  function CompactPin(m: ManagerState, selector: string, credentialGeneration: nat, now: Time): Result<TunnelPin,
      ManagerError> {
    if selector == "" || credentialGeneration == 0 || !m.Serving() || !SessionUsable(m.snapshot, now)
    then Err(SelectorUnknown)
    else
      var resolved := ResolveSelector(m.snapshot.value, selector, now);
      if resolved.Err? then Err(resolved.error)
      else
        var (node, ref) := resolved.value;
        var session := m.snapshot.value.sessions.For(node.EffectiveProfile());
        if ref.generation != credentialGeneration || session.None? then Err(SelectorUnknown)
        else Ok(TunnelPin(session.value, m.snapshot.value.expiresAt, node, ref))
  }

  predicate SessionCurrentPin(m: ManagerState, pin: TunnelPin, now: Time) {
    && m.Serving()
    && m.snapshot.Some?
    && m.snapshot.value.expiresAt == pin.expiresAt
    && SessionUsable(m.snapshot, now)
    && m.snapshot.value.sessions.For(pin.node.EffectiveProfile()) == Some(pin.session)
  }

  // ---------- restoring a manager at startup ----------

  ghost function RestoreProblem(p: Platform, initial: Option<RuntimeSnapshot>, g: SubscriptionGeneration, key: Key,
                                now: Time): Option<ManagerError> {
    if |key| != 0 && |key| != KEY_SIZE then Some(AccountChanged)
    else if g.number != 0 && !g.Valid() then Some(AccountChanged)
    else if |g.binding| != 0 && |key| != KEY_SIZE then Some(AccountChanged)
    else if Prepared(initial, now).Some? && !ValidRuntimeSnapshot(Prepared(initial, now).value, now)
        then Some(InvalidSnapshot)
    else if SessionUsable(initial, now)
        && (|key| != KEY_SIZE || g.number == 0 || !MatchesBinding(p, g.binding, key, initial.value.sessions.UserID()))
    then Some(AccountChanged)
    else None
  }

  function Prepared(initial: Option<RuntimeSnapshot>, now: Time): Option<RuntimeSnapshot> {
    if initial.None? || now < initial.value.createdAt then None
    else if SessionUsable(initial, now) then initial
    else
      var wiped := initial.value.(sessions := WIPED);
      Some(if now < wiped.expiresAt then wiped.(expiresAt := now) else wiped)
  }

  function Restored(initial: Option<RuntimeSnapshot>, g: SubscriptionGeneration, key: Key, now: Time): ManagerState {
    var prepared := Prepared(initial, now);
    var phase := if SessionUsable(initial, now) then Ready
                 else if prepared.Some? && prepared.value.nodes != [] then Expired
                 else SignedOut;
    ManagerState(phase, None, 0, g, if |key| == KEY_SIZE then Some(key) else None, prepared)
  }

  // ---------- the program ----------

  class StateManager {
    const platform: Platform
    var phase: ServiceState
    var active: Option<Operation>
    var lease: nat
    var subscription: SubscriptionGeneration
    var key: Option<Key>
    var snapshot: Option<RuntimeSnapshot>

    ghost function View(): ManagerState
      reads this
    {
      ManagerState(phase, active, lease, subscription, key, snapshot)
    }

    constructor (platform: Platform, s: ManagerState)
      ensures this.platform == platform && View() == s
    {
      this.platform := platform;
      phase, active, lease, subscription, key, snapshot := s.phase, s.active, s.lease, s.subscription, s.key,
          s.snapshot;
    }

    method ConfigureBindingKey(bindingKey: Key) returns (err: Option<ManagerError>)
      modifies this
      ensures err == (if |bindingKey| != KEY_SIZE then Some(AccountChanged)
                      else if old(key).Some? then Some(KeyAlreadyConfigured) else None)
      ensures View() == if err.None? then old(View()).(key := Some(bindingKey)) else old(View())
    {
      if |bindingKey| != KEY_SIZE {
        return Some(AccountChanged);
      }
      if key.Some? {
        return Some(KeyAlreadyConfigured);
      }
      key := Some(bindingKey);
      return None;
    }

    method BeginOperation(op: Operation) returns (r: Result<nat, ManagerError>)
      modifies this
      ensures var step := Begin(old(View()), op);
              if step.Ok? then View() == step.value && r == Ok(lease)
              else View() == old(View()) && r == Err(step.error)
    {
      if active.Some? {
        return Err(OperationInProgress);
      }
      var target;
      match op {
        case LoginOperation =>
          if phase != SignedOut && phase != Expired && phase != Faulted {
            return Err(InvalidTransition);
          }
          target := Authenticating;
        case RefreshOperation =>
          if phase != Ready && phase != Degraded {
            return Err(InvalidTransition);
          }
          target := Syncing;
      }
      phase := target;
      active := Some(op);
      lease := lease + 1;
      return Ok(lease);
    }

    method FinishOperation(held: nat, op: Operation, outcome: Outcome, now: Time)
      modifies this
      ensures View() == Finish(old(View()), held, op, outcome, now)
    {
      if lease != held || active != Some(op) {
        return;
      }
      active := None;
      if outcome == Succeeded {
        if op == LoginOperation && phase == Authenticating {
          phase := Syncing;
        }
        return;
      }
      if op == LoginOperation {
        WipeForSignOut();
        return;
      }
      if snapshot.Some? && snapshot.value.sessions.Valid() {
        if snapshot.value.expiresAt != UNSET && now >= snapshot.value.expiresAt {
          WipeForExpiry(now);
        } else {
          phase := Degraded;
        }
      } else {
        phase := Faulted;
      }
    }

    method WipeForSignOut()
      modifies this
      ensures View() == SignOutLocked(old(View()))
    {
      if snapshot.Some? {
        snapshot := Some(snapshot.value.(sessions := WIPED, account := NO_ACCOUNT));
      }
      phase := SignedOut;
    }

    method WipeForExpiry(now: Time)
      modifies this
      ensures View() == ExpireLocked(old(View()), now)
    {
      if snapshot.Some? {
        snapshot := Some(snapshot.value.(expiresAt := now, sessions := WIPED));
      }
      phase := Expired;
    }

    method MoveTo(next: ServiceState) returns (err: Option<ManagerError>)
      modifies this
      ensures var step := Transition(old(View()), next);
              if step.Ok? then View() == step.value && err.None? else View() == old(View()) && err == Some(step.error)
    {
      var allowed;
      match phase {
        case SignedOut => allowed := next == Authenticating;
        case Authenticating => allowed := next == Syncing || next == Ready || next == SignedOut || next == Faulted;
        case Syncing => allowed := next != Authenticating && next != Syncing;
        case Ready => allowed := next == Syncing || next == Degraded || next == Expired || next == SignedOut;
        case Degraded => allowed := next != Authenticating && next != Degraded;
        case Expired => allowed := next == Authenticating || next == SignedOut;
        case Faulted => allowed := next == Authenticating || next == SignedOut;
      }
      if !allowed {
        return Some(InvalidTransition);
      }
      phase := next;
      return None;
    }

    method Commit(next: RuntimeSnapshot, now: Time) returns (err: Option<ManagerError>)
      modifies this
      ensures err == CommitProblem(platform, old(View()), next, now)
      ensures View() == if err.None? then Committed(old(View()), next) else old(View())
    {
      var valid := ValidateRuntimeSnapshot(next, now);
      if !valid || !next.sessions.Valid() {
        return Some(InvalidSnapshot);
      }
      var hasEligible := false;
      for i := 0 to |next.nodes|
        invariant !hasEligible
        invariant forall n | n in next.nodes[..i] :: !n.TunnelEligible()
      {
        assert next.nodes[..i + 1] == next.nodes[..i] + [next.nodes[i]];
        if next.nodes[i].TunnelEligible() {
          assert next.nodes[i] in next.nodes;
          hasEligible := true;
          break;
        }
      }
      assert next.nodes[..|next.nodes|] == next.nodes;
      if !hasEligible {
        return Some(InvalidSnapshot);
      }
      if phase != Authenticating && phase != Syncing && phase != Ready && phase != Degraded {
        return Some(InvalidTransition);
      }
      if snapshot.Some? && next.generation <= snapshot.value.generation {
        return Some(InvalidSnapshot);
      }
      if key.None? || subscription.number == 0 || |subscription.binding| != KEY_SIZE {
        return Some(AccountChanged);
      }
      var bound := MatchAccount(platform, subscription.binding, key.value, next.sessions.UserID());
      if !bound {
        return Some(AccountChanged);
      }
      snapshot := Some(next);
      if phase == Authenticating || phase == Syncing {
        phase := Ready;
      }
      return None;
    }

    method InstallSubscriptionGeneration(candidate: SubscriptionGeneration, userID: string)
      returns (previous: Option<SubscriptionGeneration>)
      modifies this
      ensures previous == if Installable(platform, old(View()), candidate, userID) then Some(old(subscription))
              else None
      ensures View() == if previous.Some? then old(View()).(subscription := candidate) else old(View())
    {
      var valid := ValidateGeneration(candidate);
      if !valid {
        return None;
      }
      if (phase != Authenticating && phase != Syncing) || key.None? || |candidate.binding| != KEY_SIZE {
        return None;
      }
      var bound := MatchAccount(platform, candidate.binding, key.value, userID);
      if !bound {
        return None;
      }
      var current := subscription;
      if current.number == 0 {
        // Nothing on disk yet: any validated candidate may be adopted.
      } else if |current.binding| == 0 || current.binding == candidate.binding {
        if candidate.number != current.number || candidate.selectorKey != current.selectorKey
           || candidate.proxyKey != current.proxyKey {
          return None;
        }
      } else if candidate.number != current.number + 1
                || current.selectorKey == candidate.selectorKey || current.proxyKey == candidate.proxyKey {
        return None;
      }
      subscription := candidate;
      return Some(current);
    }

    method ReinstallSubscription(candidate: SubscriptionGeneration, previous: SubscriptionGeneration)
      modifies this
      ensures View() == Reinstalled(old(View()), candidate, previous)
    {
      if subscription.number == candidate.number && subscription.selectorKey == candidate.selectorKey
         && subscription.proxyKey == candidate.proxyKey && subscription.binding == candidate.binding {
        subscription := previous;
      }
    }

    method LogOut()
      modifies this
      ensures View() == SignOut(old(View()))
    {
      active := None;
      lease := lease + 1;
      WipeForSignOut();
    }

    method MarkExpired(now: Time) returns (err: Option<ManagerError>)
      modifies this
      ensures var step := Expire(old(View()), now);
              if step.Ok? then View() == step.value && err.None? else View() == old(View()) && err == Some(step.error)
    {
      if phase != Expired && phase != Ready && phase != Degraded && phase != Syncing && phase != Faulted {
        return Some(InvalidTransition);
      }
      WipeForExpiry(now);
      return None;
    }

    method Pin(selector: string, credentialGeneration: nat, now: Time) returns (r: Result<TunnelPin, ManagerError>)
      ensures r == CompactPin(View(), selector, credentialGeneration, now)
      // The session is that of the profile the node is marked for.
      ensures r.Ok? ==>
                && snapshot.Some? && r.value.node in snapshot.value.nodes
                && AuthorityOf(snapshot.value.sessions, r.value.node.profile, r.value.session)
    {
      if selector == "" || credentialGeneration == 0 {
        return Err(SelectorUnknown);
      }
      if (phase != Ready && phase != Degraded && phase != Syncing) || !SessionUsable(snapshot, now) {
        return Err(SelectorUnknown);
      }
      var current := snapshot.value;
      if selector !in current.selectors {
        return Err(SelectorUnknown);
      }
      var ref := current.selectors[selector];
      if ref.tombstoned {
        return Err(if ref.until == UNSET || now < ref.until then SelectorTombstoned else SelectorUnknown);
      }
      var node := NodeByID(current.nodes, ref.nodeID);
      if node.None? || ref.generation != credentialGeneration {
        return Err(SelectorUnknown);
      }
      var session, available := SessionFor(current.sessions, node.value.EffectiveProfile());
      if !available {
        return Err(SelectorUnknown);
      }
      return Ok(TunnelPin(session, current.expiresAt, node.value, ref));
    }

    // The final admission check of a tunnel.
    method ConfirmSession(pin: TunnelPin, now: Time) returns (current: bool)
      ensures current <==> SessionCurrentPin(View(), pin, now)
      ensures current ==>
                && phase in {Ready, Degraded, Syncing} && snapshot.Some?
                && 0 < snapshot.value.createdAt <= now < snapshot.value.expiresAt == pin.expiresAt
                && AuthorityOf(snapshot.value.sessions, pin.node.profile, pin.session)
    {
      if phase != Ready && phase != Degraded && phase != Syncing {
        return false;
      }
      if snapshot.None? || snapshot.value.expiresAt != pin.expiresAt || !SessionUsable(snapshot, now) {
        return false;
      }
      UsableExactly(snapshot.value, now);
      var session, available := SessionFor(snapshot.value.sessions, pin.node.EffectiveProfile());
      return available && session == pin.session;
    }
  }

  method NewManager(p: Platform, initial: Option<RuntimeSnapshot>, g: SubscriptionGeneration, key: Key, now: Time)
    returns (r: Result<StateManager, ManagerError>)
    ensures r.Err? ==> RestoreProblem(p, initial, g, key, now) == Some(r.error)
    ensures r.Ok? ==> RestoreProblem(p, initial, g, key, now).None?
    ensures r.Ok? ==> fresh(r.value) && r.value.platform == p && r.value.View() == Restored(initial, g, key, now)
  {
    if |key| != 0 && |key| != KEY_SIZE {
      return Err(AccountChanged);
    }
    var valid := ValidateGeneration(g);
    if g.number != 0 && !valid {
      return Err(AccountChanged);
    }
    if |g.binding| != 0 && |key| != KEY_SIZE {
      return Err(AccountChanged);
    }
    var prepared := initial;
    if initial.Some? && now < initial.value.createdAt {
      prepared := None;
    } else if initial.Some? && !SessionUsable(initial, now) {
      prepared := Some(initial.value.(sessions := WIPED));
      if now < prepared.value.expiresAt {
        prepared := Some(prepared.value.(expiresAt := now));
      }
    }
    if prepared.Some? {
      valid := ValidateRuntimeSnapshot(prepared.value, now);
      if !valid {
        return Err(InvalidSnapshot);
      }
    }
    var phase := SignedOut;
    if SessionUsable(initial, now) {
      if |key| != KEY_SIZE || g.number == 0 {
        return Err(AccountChanged);
      }
      var bound := MatchAccount(p, g.binding, key, initial.value.sessions.UserID());
      if !bound {
        return Err(AccountChanged);
      }
      phase := Ready;
    } else if prepared.Some? && |prepared.value.nodes| > 0 {
      phase := Expired;
    }
    var m := new StateManager(p,
                              ManagerState(phase, None, 0, g, if |key| == KEY_SIZE then Some(key) else None, prepared));
    return Ok(m);
  }
}
