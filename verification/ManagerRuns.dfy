/**
 What holds over every sequence of manager calls, in whatever order callers
 issue them.
 */
module ManagerRuns {
  import opened Foundations
  import opened StateTypes
  import opened Platform
  import opened Manager

  datatype Call =
    | ConfigureCall(key: Key)
    | BeginCall(op: Operation)
    | FinishCall(lease: nat, op: Operation, outcome: Outcome, now: Time)
    | MoveCall(to: ServiceState)
    | CommitCall(snapshot: RuntimeSnapshot, now: Time)
    | InstallCall(candidate: SubscriptionGeneration, userID: string)
    | ReinstallCall(candidate: SubscriptionGeneration, previous: SubscriptionGeneration)
    | SignOutCall
    | ExpireCall(now: Time)

  ghost function Apply(p: Platform, m: ManagerState, c: Call): ManagerState {
    match c
    case ConfigureCall(key) => if |key| == KEY_SIZE && m.key.None? then m.(key := Some(key)) else m
    case BeginCall(op) => if Begin(m, op).Ok? then Begin(m, op).value else m
    case FinishCall(lease, op, outcome, now) => Finish(m, lease, op, outcome, now)
    case MoveCall(to) => if Transition(m, to).Ok? then Transition(m, to).value else m
    case CommitCall(s, now) => if CommitProblem(p, m, s, now).None? then Committed(m, s) else m
    case InstallCall(candidate, userID) => if Installable(p, m, candidate, userID) then m.(subscription := candidate)
        else m
    case ReinstallCall(candidate, previous) => Reinstalled(m, candidate, previous)
    case SignOutCall => SignOut(m)
    case ExpireCall(now) => if Expire(m, now).Ok? then Expire(m, now).value else m
  }

  ghost function Run(p: Platform, m: ManagerState, calls: seq<Call>): ManagerState
    decreases |calls|
  {
    if calls == [] then m else Run(p, Apply(p, m, calls[0]), calls[1..])
  }

  // ---------- pins ----------

  // A pin is issued exactly for a live reference of the asked generation, and
  // carries that reference's node and the current session of the profile that
  // the node is marked for.
  ghost predicate PinFor(m: ManagerState, selector: string, credentialGeneration: nat, now: Time, pin: TunnelPin) {
    && m.phase in {Ready, Degraded, Syncing} && m.snapshot.Some?
    && var s := m.snapshot.value;
    && s.sessions.Valid() && 0 < s.createdAt <= now < s.expiresAt
    && selector != "" && credentialGeneration != 0
    && selector in s.selectors && s.selectors[selector] == pin.ref
    && !pin.ref.tombstoned && pin.ref.generation == credentialGeneration
    && FindNode(s.nodes, pin.ref.nodeID) == Some(pin.node)
    && AuthorityOf(s.sessions, pin.node.profile, pin.session)
    && pin.expiresAt == s.expiresAt
  }

  lemma PinExactly(m: ManagerState, selector: string, credentialGeneration: nat, now: Time, pin: TunnelPin)
    ensures CompactPin(m, selector, credentialGeneration, now) == Ok(pin) <==>
              PinFor(m, selector, credentialGeneration, now, pin)
  {
    if CompactPin(m, selector, credentialGeneration, now).Ok? {
      ForExactly(m.snapshot.value.sessions, CompactPin(m, selector, credentialGeneration, now).value.node.profile,
                 pin.session);
    }
  }

  // A freshly issued pin passes the final check in the same state.
  lemma IssuedPinIsCurrent(m: ManagerState, selector: string, credentialGeneration: nat, now: Time)
    requires CompactPin(m, selector, credentialGeneration, now).Ok?
    ensures SessionCurrentPin(m, CompactPin(m, selector, credentialGeneration, now).value, now)
  {
  }

  // ---------- no authority without a commit ----------

  lemma {:induction false} SessionsOnlyByCommit(p: Platform, m: ManagerState, calls: seq<Call>)
    requires !m.HoldsSessions()
    requires forall c | c in calls :: !c.CommitCall?
    ensures !Run(p, m, calls).HoldsSessions()
    decreases |calls|
  {
    if calls != [] {
      assert calls[0] in calls;
      assert !WIPED.Valid();
      SessionsOnlyByCommit(p, Apply(p, m, calls[0]), calls[1..]);
    }
  }

  // The calls that invalidate a session: logout or stop, expiry, a failed login.
  ghost predicate Invalidates(m: ManagerState, c: Call) {
    || c.SignOutCall?
    || (c.ExpireCall? && Expire(m, c.now).Ok?)
    || (c.FinishCall? && c.op == LoginOperation && c.outcome != Succeeded && m.lease == c.lease
        && m.active == Some(LoginOperation))
  }

  // After an invalidation, whatever other calls follow and however the raw
  // transition is used, no pin is issued or confirmed before the next commit.
  lemma NoPinUntilCommit(p: Platform, m: ManagerState, c: Call, calls: seq<Call>, selector: string,
                         credentialGeneration: nat, pin: TunnelPin, now: Time)
    requires Invalidates(m, c)
    requires forall later | later in calls :: !later.CommitCall?
    ensures CompactPin(Run(p, Apply(p, m, c), calls), selector, credentialGeneration, now).Err?
    ensures !SessionCurrentPin(Run(p, Apply(p, m, c), calls), pin, now)
  {
    assert !WIPED.Valid();
    SessionsOnlyByCommit(p, Apply(p, m, c), calls);
  }

  // Transition to signed_out is not such a call: it keeps the sessions, and two
  // more transitions bring every pin back. Only the paths above may sign out.
  lemma RawSignOutIsReversible(p: Platform, m: ManagerState, selector: string, credentialGeneration: nat, now: Time)
    requires m.phase in {Ready, Degraded, Syncing}
    ensures var after := Run(p, m, [MoveCall(SignedOut), MoveCall(Authenticating), MoveCall(Syncing)]);
            CompactPin(after, selector, credentialGeneration, now) == CompactPin(m, selector, credentialGeneration, now)
  {
    var c := [MoveCall(SignedOut), MoveCall(Authenticating), MoveCall(Syncing)];
    assert c[1..] == [MoveCall(Authenticating), MoveCall(Syncing)];
    assert c[1..][1..] == [MoveCall(Syncing)];
    assert Run(p, m, c) == Run(p, m.(phase := SignedOut), c[1..]);
    assert Run(p, m.(phase := SignedOut), c[1..]) == Run(p, m.(phase := Authenticating), c[1..][1..]);
    assert Run(p, m.(phase := Authenticating), c[1..][1..]) == m.(phase := Syncing);
  }

  // ---------- leases ----------

  // A lease that was released or superseded.
  predicate Stale(m: ManagerState, lease: nat) {
    lease < m.lease || (lease == m.lease && m.active.None?)
  }

  lemma {:induction false} StaleForever(p: Platform, m: ManagerState, lease: nat, calls: seq<Call>)
    requires Stale(m, lease)
    ensures Stale(Run(p, m, calls), lease)
    decreases |calls|
  {
    if calls != [] {
      StaleForever(p, Apply(p, m, calls[0]), lease, calls[1..]);
    }
  }

  // Completing an operation releases its lease, signing out supersedes every
  // lease, and a completion of such a lease changes nothing ever after.
  lemma SupersededCompletionIsInert(p: Platform, m: ManagerState, c: Call, lease: nat, calls: seq<Call>, op: Operation,
                                    outcome: Outcome, now: Time)
    requires lease <= m.lease
    requires c.SignOutCall? || (c.FinishCall? && c.lease == lease && m.active == Some(c.op))
    ensures var later := Run(p, Apply(p, m, c), calls);
            Apply(p, later, FinishCall(lease, op, outcome, now)) == later
  {
    StaleForever(p, Apply(p, m, c), lease, calls);
  }

  // The lease of a new operation is above all earlier ones.
  lemma {:induction false} LeasesGrow(p: Platform, m: ManagerState, calls: seq<Call>)
    ensures m.lease <= Run(p, m, calls).lease
    decreases |calls|
  {
    if calls != [] {
      LeasesGrow(p, Apply(p, m, calls[0]), calls[1..]);
    }
  }

  // ---------- snapshots ----------

  function Generation(m: ManagerState): nat {
    if m.snapshot.None? then 0 else m.snapshot.value.generation
  }

  lemma {:induction false} GenerationsKept(p: Platform, m: ManagerState, calls: seq<Call>)
    ensures Generation(m) <= Generation(Run(p, m, calls))
    decreases |calls|
  {
    if calls != [] {
      GenerationsKept(p, Apply(p, m, calls[0]), calls[1..]);
    }
  }

  // A run is its first calls, then the others.
  lemma {:induction false} RunSplits(p: Platform, m: ManagerState, calls: seq<Call>, i: nat)
    requires i <= |calls|
    ensures Run(p, m, calls) == Run(p, Run(p, m, calls[..i]), calls[i..])
    decreases |calls|
  {
    if i == 0 {
      assert calls[..0] == [] && calls[0..] == calls;
    } else {
      RunSplits(p, Apply(p, m, calls[0]), calls[1..], i - 1);
      assert calls[..i] == [calls[0]] + calls[1..][..i - 1] && calls[i..] == calls[1..][i - 1..];
    }
  }

  // Generations only grow, and an accepted commit is above everything before it.
  lemma GenerationsGrow(p: Platform, m: ManagerState, calls: seq<Call>)
    ensures Generation(m) <= Generation(Run(p, m, calls))
    ensures forall i | 0 <= i < |calls| && calls[i].CommitCall?
                       && CommitProblem(p, Run(p, m, calls[..i]), calls[i].snapshot, calls[i].now).None? ::
              Generation(m) < calls[i].snapshot.generation <= Generation(Run(p, m, calls))
  {
    GenerationsKept(p, m, calls);
    forall i | 0 <= i < |calls| && calls[i].CommitCall?
               && CommitProblem(p, Run(p, m, calls[..i]), calls[i].snapshot, calls[i].now).None?
      ensures Generation(m) < calls[i].snapshot.generation <= Generation(Run(p, m, calls))
    {
      CommitRaises(p, m, calls, i);
    }
  }

  lemma CommitRaises(p: Platform, m: ManagerState, calls: seq<Call>, i: nat)
    requires i < |calls| && calls[i].CommitCall?
    requires CommitProblem(p, Run(p, m, calls[..i]), calls[i].snapshot, calls[i].now).None?
    ensures Generation(m) < calls[i].snapshot.generation <= Generation(Run(p, m, calls))
  {
    var before := Run(p, m, calls[..i]);
    GenerationsKept(p, m, calls[..i]);
    RunSplits(p, m, calls, i);
    GenerationsKept(p, Apply(p, before, calls[i]), calls[i..][1..]);
  }
}
