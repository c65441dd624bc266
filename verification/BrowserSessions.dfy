/**
 The browser session store (internal/web/security.go): reservation of sessions,
 the login slot of each session, and the signal that a session has ended. Each
 method is one hold of the store's mutex and is proved against a step; every run
 of steps keeps the store sane.
 */
module BrowserSessions {
  import opened Foundations
  import opened LoginWindows

  // done is the identity of the channel closed when the session ends.
  datatype Session = Session(csrf: string, expiresAt: Time, done: nat)

  datatype Reservation = Reserved | LimitReached | Collision

  type Sessions = map<string, Session>

  type Attempts = map<string, Attempt>

  // The store with what is only for the record: channels closed so far, logins
  // admitted and not yet finished, counted failures of each session since its
  // last success, and the latest clock reading.
  datatype State = State(sessions: Sessions, pending: set<string>, attempts: Attempts, nextDone: nat,
                         closed: set<nat>, tickets: multiset<string>, history: map<string, seq<Time>>, clock: Time)
  {
    function Attempt(token: string): Attempt {
      if token in attempts then attempts[token] else NO_ATTEMPT
    }

    function History(token: string): seq<Time> {
      if token in history then history[token] else []
    }

    predicate Active(token: string, now: Time) {
      token in sessions && now < sessions[token].expiresAt
    }
  }

  const EMPTY := State(map[], {}, map[], 0, {}, multiset{}, map[], 0)

  // ---------- the invariant ----------

  ghost predicate Bounded(s: State, max: nat) {
    |s.sessions| + |s.pending| <= max && s.sessions.Keys !! s.pending
  }

  // Every active session has an open channel of its own.
  ghost predicate Channels(s: State) {
    && (forall token | token in s.sessions ::
          s.sessions[token].done < s.nextDone && s.sessions[token].done !in s.closed)
    && (forall a, b | a in s.sessions && b in s.sessions && a != b :: s.sessions[a].done != s.sessions[b].done)
    && (forall done | done in s.closed :: done < s.nextDone)
  }

  // One slot for each token, taken exactly while a login of an active session is
  // under way.
  ghost predicate Slots(s: State) {
    && (forall token :: s.tickets[token] <= 1)
    && (forall token | token in s.sessions :: s.tickets[token] == 1 <==> s.Attempt(token).inFlight)
  }

  ghost predicate TracksFor(s: State, token: string) {
    Tracks(s.Attempt(token), s.History(token), s.clock)
  }

  ghost predicate Tracked(s: State) {
    && s.attempts.Keys <= s.sessions.Keys && s.history.Keys <= s.sessions.Keys
    && forall token | token in s.sessions :: TracksFor(s, token)
  }

  ghost predicate Sane(s: State, max: nat) {
    Bounded(s, max) && Channels(s) && Slots(s) && Tracked(s)
  }

  // ---------- steps ----------

  function Without(s: State, gone: set<string>): State {
    s.(sessions := s.sessions - gone, attempts := s.attempts - gone, history := s.history - gone,
       closed := s.closed + set token | token in s.sessions && token in gone :: s.sessions[token].done)
  }

  function Expired(s: State, now: Time): set<string> {
    set token | token in s.sessions && s.sessions[token].expiresAt <= now
  }

  // Records whose window is still open or whose login is under way.
  function Kept(attempts: Attempts, now: Time): Attempts {
    map token | token in attempts && (attempts[token].inFlight || now < attempts[token].windowEnd) :: attempts[token]
  }

  function Trimmed(s: State, now: Time): State {
    s.(attempts := Kept(s.attempts, now), clock := now)
  }

  function Pruned(s: State, now: Time, later: Time): State {
    Trimmed(Without(s, Expired(s, now)), later)
  }

  function WithSession(s: State, token: string, csrf: string, expiresAt: Time): State {
    s.(sessions := s.sessions[token := Session(csrf, expiresAt, s.nextDone)], pending := s.pending - {token},
       nextDone := s.nextDone + 1)
  }

  function Started(s: State, token: string, now: Time): State {
    s.(attempts := s.attempts[token := Begun(s.Attempt(token), now)], tickets := s.tickets + multiset{token},
       clock := now)
  }

  function Stored(attempts: Attempts, token: string, a: Attempt): Attempts {
    if a.failures == 0 then attempts - {token} else attempts[token := a]
  }

  function Finished(s: State, token: string, successful: bool, counted: bool, now: Time, later: Time): State {
    var released := s.(tickets := s.tickets - multiset{token});
    if !s.Active(token, now) then Without(released, {token}) else Concluded(released, token, successful, counted, later)
  }

  // The record of an active session after a login of it.
  function Concluded(s: State, token: string, successful: bool, counted: bool, later: Time): State {
    if !s.Attempt(token).inFlight then s
    else if successful then s.(attempts := s.attempts - {token}, history := s.history - {token}, clock := later)
    else
      s.(attempts := Stored(s.attempts, token, Unsuccessful(s.Attempt(token), later, counted)),
         history := if counted then s.history[token := s.History(token) + [later]] else s.history, clock := later)
  }

  // ---------- what every step keeps ----------

  lemma KeysSize<V>(m: map<string, V>)
    ensures |m| == |m.Keys|
  {
  }

  lemma WithoutBounded(s: State, max: nat, gone: set<string>)
    requires Bounded(s, max)
    ensures Bounded(Without(s, gone), max)
  {
    var t := Without(s, gone);
    assert t.sessions.Keys == s.sessions.Keys - gone;
    SubsetCardinality(t.sessions.Keys, s.sessions.Keys);
    KeysSize(s.sessions);
    KeysSize(t.sessions);
  }

  lemma WithoutTracked(s: State, gone: set<string>)
    requires Tracked(s)
    ensures Tracked(Without(s, gone))
  {
    var t := Without(s, gone);
    forall token | token in t.sessions
      ensures TracksFor(t, token)
    {
      assert TracksFor(s, token) && t.Attempt(token) == s.Attempt(token) && t.History(token) == s.History(token);
    }
  }

  lemma WithoutSlots(s: State, gone: set<string>)
    requires Slots(s)
    ensures Slots(Without(s, gone))
  {
    var t := Without(s, gone);
    forall token | token in t.sessions
      ensures t.tickets[token] == 1 <==> t.Attempt(token).inFlight
    {
      assert t.Attempt(token) == s.Attempt(token);
    }
  }

  lemma WithoutKeeps(s: State, max: nat, gone: set<string>)
    requires Sane(s, max)
    ensures Sane(Without(s, gone), max)
  {
    WithoutBounded(s, max, gone);
    WithoutChannels(s, gone);
    WithoutTracked(s, gone);
    WithoutSlots(s, gone);
  }

  lemma WithoutChannels(s: State, gone: set<string>)
    requires Channels(s)
    ensures Channels(Without(s, gone))
  {
  }

  // Removing one more.
  lemma WithoutOneMore(s: State, gone: set<string>, token: string)
    requires token in s.sessions && token !in gone
    ensures Without(Without(s, gone), {token}) == Without(s, gone + {token})
  {
    var one, all := Without(Without(s, gone), {token}), Without(s, gone + {token});
    assert one.sessions == all.sessions && one.attempts == all.attempts && one.history == all.history;
  }

  lemma KeepingTracks(s: State, token: string, now: Time)
    requires TracksFor(s, token) && s.clock <= now
    ensures TracksFor(Trimmed(s, now), token)
    ensures Trimmed(s, now).Attempt(token).inFlight == s.Attempt(token).inFlight
  {
    var a := s.Attempt(token);
    TracksLater(a, s.History(token), s.clock, now);
    if token in s.attempts && !a.inFlight && a.windowEnd <= now && a.windowEnd != UNSET {
      OverIsRested(a, s.History(token), now);
    }
  }

  // Only active sessions have records, so after trimming there are never more
  // records than sessions: evicting records for want of space has no work to do.
  lemma TrimmedKeeps(s: State, max: nat, now: Time)
    requires Sane(s, max) && s.clock <= now
    ensures Sane(Trimmed(s, now), max) && |Trimmed(s, now).attempts| <= max
  {
    var t := Trimmed(s, now);
    forall token | token in t.sessions
      ensures TracksFor(t, token) && t.Attempt(token).inFlight == s.Attempt(token).inFlight
    {
      assert TracksFor(s, token);
      KeepingTracks(s, token, now);
    }
    SubsetCardinality(t.attempts.Keys, t.sessions.Keys);
    KeysSize(t.attempts);
    KeysSize(t.sessions);
  }

  lemma SessionKeeps(s: State, max: nat, token: string, csrf: string, expiresAt: Time)
    requires Sane(s, max) && token !in s.sessions && s.tickets[token] == 0
    requires token in s.pending || |s.sessions| + |s.pending| < max
    ensures Sane(WithSession(s, token, csrf, expiresAt), max)
  {
    var t := WithSession(s, token, csrf, expiresAt);
    assert t.sessions.Keys == s.sessions.Keys + {token};
    KeysSize(s.sessions);
    KeysSize(t.sessions);
    SessionTracked(s, token, csrf, expiresAt);
    SessionSlots(s, token, csrf, expiresAt);
    SessionChannels(s, token, csrf, expiresAt);
  }

  lemma SessionChannels(s: State, token: string, csrf: string, expiresAt: Time)
    requires Channels(s) && token !in s.sessions
    ensures Channels(WithSession(s, token, csrf, expiresAt))
  {
  }

  lemma SessionSlots(s: State, token: string, csrf: string, expiresAt: Time)
    requires Slots(s) && token !in s.sessions && token !in s.attempts && s.tickets[token] == 0
    ensures Slots(WithSession(s, token, csrf, expiresAt))
  {
    var t := WithSession(s, token, csrf, expiresAt);
    forall other | other in t.sessions
      ensures t.tickets[other] == 1 <==> t.Attempt(other).inFlight
    {
      assert t.Attempt(other) == s.Attempt(other);
    }
  }

  lemma SessionTracked(s: State, token: string, csrf: string, expiresAt: Time)
    requires Tracked(s) && token !in s.sessions
    ensures Tracked(WithSession(s, token, csrf, expiresAt))
  {
    var t := WithSession(s, token, csrf, expiresAt);
    forall other | other in t.sessions
      ensures TracksFor(t, other)
    {
      assert t.Attempt(other) == s.Attempt(other) && t.History(other) == s.History(other);
      assert other != token ==> TracksFor(s, other);
    }
  }

  lemma UnchangedOthers(s: State, t: State, token: string)
    requires Tracked(s) && t.sessions == s.sessions && s.clock <= t.clock
    requires forall other | other in s.sessions && other != token ::
               t.Attempt(other) == s.Attempt(other) && t.History(other) == s.History(other)
    ensures forall other | other in t.sessions && other != token :: TracksFor(t, other)
  {
    forall other | other in t.sessions && other != token
      ensures TracksFor(t, other)
    {
      assert TracksFor(s, other);
      TracksLater(s.Attempt(other), s.History(other), s.clock, t.clock);
    }
  }

  lemma StartedTracked(s: State, token: string, now: Time)
    requires Tracked(s) && s.clock <= now && token in s.sessions && Admit(s.Attempt(token), now) == Admitted
    ensures Tracked(Started(s, token, now))
  {
    var t := Started(s, token, now);
    assert TracksFor(s, token);
    TracksLater(s.Attempt(token), s.History(token), s.clock, now);
    BeginTracks(s.Attempt(token), s.History(token), now);
    UnchangedOthers(s, t, token);
    assert TracksFor(t, token);
  }

  lemma StartedSlots(s: State, token: string, now: Time)
    requires Slots(s) && token in s.sessions && Admit(s.Attempt(token), now) == Admitted
    ensures Slots(Started(s, token, now)) && s.tickets[token] == 0
  {
  }

  lemma StartedKeeps(s: State, max: nat, token: string, now: Time)
    requires Sane(s, max) && s.clock <= now && token in s.sessions && Admit(s.Attempt(token), now) == Admitted
    ensures Sane(Started(s, token, now), max)
  {
    StartedTracked(s, token, now);
    StartedSlots(s, token, now);
  }

  lemma ReleasedKeepsSlots(s: State, t: State, token: string)
    requires Slots(s) && t.sessions.Keys <= s.sessions.Keys && t.tickets == s.tickets - multiset{token}
    requires forall other | other in t.sessions && other != token :: t.Attempt(other) == s.Attempt(other)
    requires token in t.sessions ==> !t.Attempt(token).inFlight
    ensures Slots(t)
  {
  }

  lemma FinishedTracks(s: State, token: string, counted: bool, now: Time, later: Time)
    requires TracksFor(s, token) && s.clock <= now <= later && s.Active(token, now) && s.Attempt(token).inFlight
    ensures TracksFor(Finished(s, token, false, counted, now, later), token)
    ensures !Finished(s, token, false, counted, now, later).Attempt(token).inFlight
  {
    var a, h := s.Attempt(token), s.History(token);
    TracksLater(a, h, s.clock, later);
    FailureTracks(a, h, later, counted);
    var t := Finished(s, token, false, counted, now, later);
    assert t.History(token) == if counted then h + [later] else h;
  }

  lemma GoneKeeps(s: State, max: nat, token: string)
    requires Sane(s, max)
    ensures Sane(Without(s.(tickets := s.tickets - multiset{token}), {token}), max)
  {
    var tickets := s.tickets - multiset{token};
    var u, t := Without(s, {token}), Without(s.(tickets := tickets), {token});
    WithoutKeeps(s, max, {token});
    ReleaseOutside(s, {token}, tickets);
    SameSessions(u, t, max);
    SameTracks(u, t);
    ReleasedKeepsSlots(u, t, token);
  }

  lemma ReleaseOutside(s: State, gone: set<string>, tickets: multiset<string>)
    ensures Without(s.(tickets := tickets), gone) == Without(s, gone).(tickets := tickets)
  {
  }

  lemma SameTracks(s: State, t: State)
    requires Tracked(s) && t.sessions == s.sessions && t.attempts == s.attempts && t.history == s.history
             && t.clock == s.clock
    ensures Tracked(t)
  {
    forall token | token in t.sessions
      ensures TracksFor(t, token)
    {
      assert TracksFor(s, token) && t.Attempt(token) == s.Attempt(token) && t.History(token) == s.History(token);
    }
  }

  lemma SuccessTracks(s: State, token: string, now: Time, later: Time)
    requires TracksFor(s, token) && s.clock <= now <= later && s.Active(token, now) && s.Attempt(token).inFlight
    ensures TracksFor(Finished(s, token, true, false, now, later), token)
    ensures !Finished(s, token, true, false, now, later).Attempt(token).inFlight
  {
  }

  lemma FinishedTracked(s: State, token: string, successful: bool, counted: bool, now: Time, later: Time)
    requires Tracked(s) && s.clock <= now <= later && s.Active(token, now) && s.Attempt(token).inFlight
    ensures Tracked(Finished(s, token, successful, counted, now, later))
    ensures !Finished(s, token, successful, counted, now, later).Attempt(token).inFlight
  {
    var t := Finished(s, token, successful, counted, now, later);
    assert TracksFor(s, token);
    assert t.attempts.Keys <= s.attempts.Keys + {token} && t.history.Keys <= s.history.Keys + {token};
    if successful {
      SuccessTracks(s, token, now, later);
    } else {
      FinishedTracks(s, token, counted, now, later);
    }
    FinishedOthers(s, token, successful, counted, now, later);
    UnchangedOthers(s, t, token);
  }

  lemma FinishedOthers(s: State, token: string, successful: bool, counted: bool, now: Time, later: Time)
    requires s.Active(token, now)
    ensures var t := Finished(s, token, successful, counted, now, later);
            forall other | other != token ::
              t.Attempt(other) == s.Attempt(other) && t.History(other) == s.History(other)
  {
  }

  lemma FinishedSlots(s: State, token: string, successful: bool, counted: bool, now: Time, later: Time)
    requires Slots(s) && s.Active(token, now)
    requires !Finished(s, token, successful, counted, now, later).Attempt(token).inFlight
    ensures Slots(Finished(s, token, successful, counted, now, later))
  {
    var t := Finished(s, token, successful, counted, now, later);
    assert forall other | other in t.sessions && other != token :: t.Attempt(other) == s.Attempt(other);
    ReleasedKeepsSlots(s, t, token);
  }

  lemma SameSessions(s: State, t: State, max: nat)
    requires Bounded(s, max) && Channels(s)
    requires t.sessions == s.sessions && t.pending == s.pending && t.closed == s.closed && t.nextDone == s.nextDone
    ensures Bounded(t, max) && Channels(t)
  {
  }

  lemma FinishedKeeps(s: State, max: nat, token: string, successful: bool, counted: bool, now: Time, later: Time)
    requires Sane(s, max) && s.clock <= now <= later && token in s.tickets
    ensures Sane(Finished(s, token, successful, counted, now, later), max)
  {
    if s.Active(token, now) {
      FinishedTracked(s, token, successful, counted, now, later);
      FinishedSlots(s, token, successful, counted, now, later);
      SameSessions(s, Finished(s, token, successful, counted, now, later), max);
    } else {
      GoneKeeps(s, max, token);
    }
  }

  // ---------- runs ----------

  // One hold of the mutex. A token that was ever retired is not drawn again (32
  // random bytes), every admitted login is finished once, and clocks do not run
  // backwards.
  datatype Op =
    | ReserveOp(token: string, now: Time, later: Time)
    | SettleOp(token: string, csrf: string, expiresAt: Time, usable: bool)
    | RestoreOp(token: string, csrf: string, expiresAt: Time)
    | RemoveOp(token: string)
    | BeginOp(token: string, now: Time, later: Time, latest: Time)
    | FinishOp(token: string, successful: bool, counted: bool, now: Time, later: Time)

  predicate Fresh(s: State, token: string) {
    token !in s.sessions && s.tickets[token] == 0
  }

  predicate Enabled(s: State, max: nat, op: Op) {
    match op
    case ReserveOp(token, now, later) => s.clock <= now <= later
        && (Reserve(s, max, token, now, later).1 == Reserved ==> s.tickets[token] == 0)
    case SettleOp(token, csrf, expiresAt, usable) => token in s.pending
    case RestoreOp(token, csrf, expiresAt) => s.pending == {} && |s.sessions| < max && Fresh(s, token)
    case RemoveOp(token) => true
    case BeginOp(token, now, later, latest) => s.clock <= now <= later <= latest
    case FinishOp(token, successful, counted, now, later) => s.clock <= now <= later && token in s.tickets
  }

  function Reserve(s: State, max: nat, token: string, now: Time, later: Time): (State, Reservation) {
    ReserveIn(Pruned(s, now, later), max, token)
  }

  function ReserveIn(pruned: State, max: nat, token: string): (State, Reservation) {
    if |pruned.sessions| + |pruned.pending| >= max then (pruned, LimitReached)
    else if token in pruned.sessions || token in pruned.pending then (pruned, Collision)
    else (pruned.(pending := pruned.pending + {token}), Reserved)
  }

  function Settle(s: State, token: string, csrf: string, expiresAt: Time, usable: bool): State {
    if usable then WithSession(s, token, csrf, expiresAt) else s.(pending := s.pending - {token})
  }

  function BeginLogin(s: State, token: string, now: Time, later: Time, latest: Time): (State, Admission) {
    var pruned := Pruned(s, now, later);
    var admission := if token !in pruned.sessions then SessionInactive else Admit(pruned.Attempt(token), latest);
    (if admission == Admitted then Started(pruned, token, latest) else pruned, admission)
  }

  function Apply(s: State, max: nat, op: Op): State {
    match op
    case ReserveOp(token, now, later) => Reserve(s, max, token, now, later).0
    case SettleOp(token, csrf, expiresAt, usable) => Settle(s, token, csrf, expiresAt, usable)
    case RestoreOp(token, csrf, expiresAt) => WithSession(s, token, csrf, expiresAt)
    case RemoveOp(token) => Without(s, {token})
    case BeginOp(token, now, later, latest) => BeginLogin(s, token, now, later, latest).0
    case FinishOp(token, successful, counted, now, later) => Finished(s, token, successful, counted, now, later)
  }

  // Tokens waiting for the disk are not those of unfinished logins.
  ghost predicate Untaken(s: State) {
    forall token | token in s.pending :: s.tickets[token] == 0
  }

  lemma PrunedKeeps(s: State, max: nat, now: Time, later: Time)
    requires Sane(s, max) && s.clock <= now <= later
    ensures Sane(Pruned(s, now, later), max) && |Pruned(s, now, later).attempts| <= max
  {
    WithoutKeeps(s, max, Expired(s, now));
    TrimmedKeeps(Without(s, Expired(s, now)), max, later);
  }

  lemma PendingKeeps(s: State, max: nat, pending: set<string>)
    requires Sane(s, max) && |s.sessions| + |pending| <= max && s.sessions.Keys !! pending
    ensures Sane(s.(pending := pending), max)
  {
    var t := s.(pending := pending);
    SameTracks(s, t);
    assert forall token :: t.Attempt(token) == s.Attempt(token);
  }

  lemma OpKeeps(s: State, max: nat, op: Op)
    requires Sane(s, max) && Untaken(s) && Enabled(s, max, op)
    ensures Sane(Apply(s, max, op), max)
  {
    match op
    case ReserveOp(token, now, later) =>
      PrunedKeeps(s, max, now, later);
      var pruned := Pruned(s, now, later);
      if Reserve(s, max, token, now, later).1 == Reserved {
        PendingKeeps(pruned, max, pruned.pending + {token});
      }
    case SettleOp(token, csrf, expiresAt, usable) =>
      if usable {
        SessionKeeps(s, max, token, csrf, expiresAt);
      } else {
        SubsetCardinality(s.pending - {token}, s.pending);
        PendingKeeps(s, max, s.pending - {token});
      }
    case RestoreOp(token, csrf, expiresAt) =>
      SessionKeeps(s, max, token, csrf, expiresAt);
    case RemoveOp(token) => WithoutKeeps(s, max, {token});
    case BeginOp(token, now, later, latest) =>
      PrunedKeeps(s, max, now, later);
      if BeginLogin(s, token, now, later, latest).1 == Admitted {
        StartedKeeps(Pruned(s, now, later), max, token, latest);
      }
    case FinishOp(token, successful, counted, now, later) =>
      FinishedKeeps(s, max, token, successful, counted, now, later);
  }

  lemma TakenLater(s: State, t: State)
    requires Untaken(s) && t.pending <= s.pending
    requires forall token | token in t.pending :: t.tickets[token] <= s.tickets[token]
    ensures Untaken(t)
  {
  }

  lemma OpKeepsUntaken(s: State, max: nat, op: Op)
    requires s.sessions.Keys !! s.pending && Untaken(s) && Enabled(s, max, op)
    ensures Untaken(Apply(s, max, op))
  {
    match op
    case ReserveOp(token, now, later) =>
    case BeginOp(token, now, later, latest) =>
      TakenLater(s, Apply(s, max, op));
    case FinishOp(token, successful, counted, now, later) =>
      TakenLater(s, Apply(s, max, op));
    case SettleOp(_, _, _, _) => TakenLater(s, Apply(s, max, op));
    case RestoreOp(_, _, _) => TakenLater(s, Apply(s, max, op));
    case RemoveOp(_) =>
  }

  ghost predicate IsStep(max: nat, s: State, op: Op, t: State) {
    Enabled(s, max, op) && t == Apply(s, max, op)
  }

  ghost predicate IsRun(max: nat, run: seq<State>, ops: seq<Op>) {
    Linked((s, op, t) => IsStep(max, s, op, t), run, ops) && run[0] == EMPTY
  }

  lemma SaneThroughout(max: nat, run: seq<State>, ops: seq<Op>, i: nat)
    requires IsRun(max, run, ops) && i < |run|
    ensures Sane(run[i], max) && Untaken(run[i])
  {
    var inv := s => Sane(s, max) && Untaken(s);
    forall s, op, t | inv(s) && IsStep(max, s, op, t)
      ensures inv(t)
    {
      OpKeeps(s, max, op);
      OpKeepsUntaken(s, max, op);
    }
    HoldsThroughout((s, op, t) => IsStep(max, s, op, t), inv, run, ops, i);
  }

  // ---------- what that means ----------

  // In every run: sessions and reservations stay within the limit, every session
  // has one login under way at most, and between successes no half-open minute
  // of an active session holds more than nine counted failures.
  lemma RunsAreLimited(max: nat, run: seq<State>, ops: seq<Op>, i: nat, token: string, from: Time, a: nat, b: nat)
    requires IsRun(max, run, ops) && i < |run|
    ensures |run[i].sessions| + |run[i].pending| <= max
    ensures run[i].tickets[token] <= 1
    ensures var h := run[i].History(token);
            token in run[i].sessions && a <= b < |h| && from <= h[a] && h[b] < from + MINUTE ==> b - a + 1 <= 9
  {
    SaneThroughout(max, run, ops, i);
    if token in run[i].sessions && a <= b < |run[i].History(token)| {
      assert TracksFor(run[i], token);
      if from <= run[i].History(token)[a] && run[i].History(token)[b] < from + MINUTE {
        AtMostNinePerMinute(run[i].History(token), from, a, b);
      }
    }
  }

  // Ending a session closes a channel nobody has closed before, and a closed
  // channel belongs to no active session ever after.
  lemma ChannelsCloseOnce(max: nat, run: seq<State>, ops: seq<Op>, i: nat, token: string)
    requires IsRun(max, run, ops) && i < |run| && token in run[i].sessions
    ensures run[i].sessions[token].done !in run[i].closed
    ensures run[i].sessions[token].done in Without(run[i], {token}).closed
  {
    SaneThroughout(max, run, ops, i);
  }

  lemma OpKeepsClosed(s: State, max: nat, op: Op)
    ensures s.closed <= Apply(s, max, op).closed
  {
  }

  lemma {:induction false} ClosedStays(max: nat, run: seq<State>, ops: seq<Op>, i: nat, j: nat)
    requires IsRun(max, run, ops) && i <= j < |run|
    ensures run[i].closed <= run[j].closed
  {
    if i < j {
      ClosedStays(max, run, ops, i, j - 1);
      assert IsStep(max, run[j - 1], ops[j - 1], run[j]);
      OpKeepsClosed(run[j - 1], max, ops[j - 1]);
    }
  }

  lemma ClosedForGood(max: nat, run: seq<State>, ops: seq<Op>, i: nat, j: nat, done: nat, token: string)
    requires IsRun(max, run, ops) && i <= j < |run| && done in run[i].closed && token in run[j].sessions
    ensures run[j].sessions[token].done != done
  {
    ClosedStays(max, run, ops, i, j);
    SaneThroughout(max, run, ops, j);
  }

  // The tokens of sessions that have not run out.
  function Live(s: State, now: Time): set<string> {
    set token | token in s.sessions && now < s.sessions[token].expiresAt
  }

  // A reservation is made exactly while there is room beside the live sessions and
  // the other reservations, for a token that neither of them has.
  lemma ReserveExactly(s: State, max: nat, token: string, now: Time, later: Time)
    ensures var (t, outcome) := Reserve(s, max, token, now, later);
            && t.sessions == Pruned(s, now, later).sessions
            && (outcome == LimitReached <==> |Live(s, now)| + |s.pending| >= max)
            && (outcome == Reserved <==>
                  |Live(s, now)| + |s.pending| < max && token !in Live(s, now) && token !in s.pending)
            && t.pending == if outcome == Reserved then s.pending + {token} else s.pending
  {
    PrunedLive(s, now, later);
    ReserveInExactly(Pruned(s, now, later), max, token, Live(s, now));
  }

  lemma ReserveInExactly(t: State, max: nat, token: string, live: set<string>)
    requires t.sessions.Keys == live && |t.sessions| == |live|
    ensures var (u, outcome) := ReserveIn(t, max, token);
            && u.sessions == t.sessions
            && (outcome == LimitReached <==> |live| + |t.pending| >= max)
            && (outcome == Reserved <==> |live| + |t.pending| < max && token !in live && token !in t.pending)
            && u.pending == if outcome == Reserved then t.pending + {token} else t.pending
  {
  }

  // Pruning leaves the live sessions as they are.
  lemma PrunedLive(s: State, now: Time, later: Time)
    ensures var t := Pruned(s, now, later);
            && t.sessions.Keys == Live(s, now) && |t.sessions| == |Live(s, now)| && t.pending == s.pending
            && forall other | other in t.sessions :: t.sessions[other] == s.sessions[other]
  {
    var t := Pruned(s, now, later);
    assert t.sessions.Keys == Live(s, now);
    KeysSize(t.sessions);
  }

  // A settled reservation is a session with the given secret and expiry and an
  // open channel of its own; all others stay as they are.
  lemma SettleExactly(s: State, max: nat, token: string, csrf: string, expiresAt: Time)
    requires Sane(s, max) && token in s.pending
    ensures var t := Settle(s, token, csrf, expiresAt, true);
            && token in t.sessions && t.sessions[token].csrf == csrf && t.sessions[token].expiresAt == expiresAt
            && t.sessions[token].done !in t.closed && t.pending == s.pending - {token}
            && (forall other | other in s.sessions ::
                  other in t.sessions && t.sessions[other] == s.sessions[other]
                  && t.sessions[other].done != t.sessions[token].done)
            && t.sessions.Keys == s.sessions.Keys + {token}
    ensures Settle(s, token, csrf, expiresAt, false) == s.(pending := s.pending - {token})
  {
  }

  // After a successful login of an active session its failures are forgotten, and
  // the next login starts a window of its own.
  lemma SuccessForgets(s: State, token: string, counted: bool, now: Time, later: Time, next: Time)
    requires s.Active(token, now) && s.Attempt(token).inFlight
    ensures var t := Finished(s, token, true, counted, now, later);
            && t.Attempt(token) == NO_ATTEMPT && t.History(token) == [] && Admit(t.Attempt(token), next) == Admitted
            && t.tickets == s.tickets - multiset{token} && t.sessions == s.sessions
  {
  }

  // ---------- the program ----------

  class SessionStore {
    const ttl: nat
    const max: nat
    var sessions: Sessions
    var pending: set<string>
    var attempts: Attempts
    var nextDone: nat
    ghost var closed: set<nat>
    ghost var tickets: multiset<string>
    ghost var history: map<string, seq<Time>>
    ghost var clock: Time

    constructor (ttl: nat, max: nat)
      ensures this.ttl == ttl && this.max == max && View() == EMPTY
    {
      this.ttl, this.max := ttl, max;
      sessions, pending, attempts, nextDone := map[], {}, map[], 0;
      closed, tickets, history, clock := {}, multiset{}, map[], 0;
    }

    ghost function View(): State
      reads this
    {
      State(sessions, pending, attempts, nextDone, closed, tickets, history, clock)
    }

    // ---------- ending sessions ----------

    // Closing a channel twice would bring the process down.
    method CloseDone(done: nat)
      requires done !in closed
      modifies `closed
      ensures closed == old(closed) + {done}
    {
      closed := closed + {done};
    }

    method RemoveSession(token: string)
      requires Channels(View())
      modifies this
      ensures View() == Without(old(View()), {token})
    {
      if token in sessions {
        CloseDone(sessions[token].done);
        sessions := sessions - {token};
      }
      attempts := attempts - {token};
      history := history - {token};
      assert View() == Without(old(View()), {token});
    }

    // Drop every expired session, then every record without use. The records of
    // sessions that are gone, which the program deletes in between, went with
    // their sessions: by the invariant there are no others.
    method Prune(now: Time, later: Time) returns (expired: set<string>)
      requires Channels(View())
      modifies this
      ensures View() == Pruned(old(View()), now, later) && expired == Expired(old(View()), now)
    {
      expired := {};
      var rest := sessions.Keys;
      assert Without(View(), {}) == View();
      while rest != {}
        invariant View() == Without(old(View()), expired)
        invariant rest <= old(sessions).Keys && expired !! rest
        invariant expired <= Expired(old(View()), now) <= expired + rest
      {
        var token :| token in rest;
        assert token in old(sessions) && token !in expired;
        if sessions[token].expiresAt <= now {
          WithoutOneMore(old(View()), expired, token);
          WithoutChannels(old(View()), expired);
          RemoveSession(token);
          expired := expired + {token};
        }
        rest := rest - {token};
      }
      assert expired == Expired(old(View()), now);
      TrimAttempts(later);
    }

    // Evicting further records for want of space never has work to do: TrimmedKeeps.
    method TrimAttempts(now: Time)
      modifies `attempts, `clock
      ensures View() == Trimmed(old(View()), now)
    {
      var rest := attempts.Keys;
      var kept: Attempts := map[];
      while rest != {}
        invariant rest <= attempts.Keys
        invariant kept == map token | token in attempts && token !in rest
                  && (attempts[token].inFlight || now < attempts[token].windowEnd) :: attempts[token]
        modifies {}
      {
        var token :| token in rest;
        if attempts[token].inFlight || now < attempts[token].windowEnd {
          kept := kept[token := attempts[token]];
        }
        rest := rest - {token};
      }
      attempts := kept;
      clock := now;
      assert View() == Trimmed(old(View()), now);
    }

    // ---------- creating sessions ----------

    // First hold of create: make room for a token, or give up on it.
    method MakeRoom(token: string, now: Time, later: Time) returns (r: Reservation, expired: set<string>)
      requires Channels(View())
      modifies this
      ensures (View(), r) == Reserve(old(View()), max, token, now, later) && expired == Expired(old(View()), now)
    {
      expired := Prune(now, later);
      if |sessions| + |pending| >= max {
        return LimitReached, expired;
      }
      if token in sessions || token in pending {
        return Collision, expired;
      }
      pending := pending + {token};
      return Reserved, expired;
    }

    // Second hold, after the session was written to disk or not.
    method Finalize(token: string, csrf: string, expiresAt: Time, saved: bool, now: Time) returns (usable: bool)
      modifies this
      ensures usable == (saved && now < expiresAt) && View() == Settle(old(View()), token, csrf, expiresAt, usable)
    {
      pending := pending - {token};
      usable := saved && now < expiresAt;
      if usable {
        sessions := sessions[token := Session(csrf, expiresAt, nextDone)];
        nextDone := nextDone + 1;
      }
    }

    method Restore(token: string, csrf: string, expiresAt: Time, wellFormed: bool, now: Time) returns (ok: bool)
      requires pending == {}
      modifies this
      ensures ok == (wellFormed && now < expiresAt <= now + ttl && |old(sessions)| < max && token !in old(sessions))
      ensures View() == if ok then WithSession(old(View()), token, csrf, expiresAt) else old(View())
    {
      if !wellFormed || expiresAt <= now || now + ttl < expiresAt || |sessions| >= max || token in sessions {
        return false;
      }
      sessions := sessions[token := Session(csrf, expiresAt, nextDone)];
      nextDone := nextDone + 1;
      assert pending == pending - {token};
      return true;
    }

    // ---------- using sessions ----------

    method Check(token: string, now: Time) returns (session: Option<Session>)
      requires Channels(View())
      modifies this
      ensures session == if token != "" && old(View()).Active(token, now) then Some(old(sessions)[token]) else None
      ensures View() ==
              if token in old(sessions) && token != "" && session.None? then Without(old(View()), {token})
              else old(View())
    {
      if token == "" || token !in sessions {
        return None;
      }
      if sessions[token].expiresAt <= now {
        RemoveSession(token);
        return None;
      }
      return Some(sessions[token]);
    }

    // The very session that a stream was started with is still active.
    method Matches(token: string, done: nat, now: Time) returns (same: bool)
      requires Channels(View())
      modifies this
      ensures same == (token != "" && old(View()).Active(token, now) && old(sessions)[token].done == done)
      ensures same ==> done !in closed
      ensures View() ==
              if token in old(sessions) && token != "" && !old(View()).Active(token, now)
              then Without(old(View()), {token}) else old(View())
    {
      if token == "" || token !in sessions {
        return false;
      }
      if sessions[token].expiresAt <= now {
        RemoveSession(token);
        return false;
      }
      same := sessions[token].done == done;
    }

    method Revoke(token: string, deleted: bool) returns (ok: bool)
      requires Channels(View())
      modifies this
      ensures ok == (token == "" || deleted)
      ensures View() == if ok && token != "" then Without(old(View()), {token}) else old(View())
    {
      if token == "" {
        return true;
      }
      if !deleted {
        return false;
      }
      RemoveSession(token);
      return true;
    }

    // ---------- logins ----------

    method StartLogin(token: string, now: Time, later: Time, latest: Time)
      returns (admission: Admission, expired: set<string>)
      requires Channels(View())
      modifies this
      ensures (View(), admission) == BeginLogin(old(View()), token, now, later, latest)
              && expired == Expired(old(View()), now)
    {
      expired := Prune(now, later);
      if token !in sessions {
        return SessionInactive, expired;
      }
      var attempt := if token in attempts then attempts[token] else NO_ATTEMPT;
      if attempt.inFlight {
        return Busy, expired;
      }
      if attempt.windowEnd != UNSET && attempt.windowEnd <= latest {
        attempt := NO_ATTEMPT;
      }
      if attempt.failures >= MAX_FAILURES {
        return RateLimited(attempt.windowEnd - latest), expired;
      }
      attempts := attempts[token := attempt.(inFlight := true)];
      tickets := tickets + multiset{token};
      clock := latest;
      return Admitted, expired;
    }

    // Called once for every admitted login, whatever became of its session.
    method FinishLogin(token: string, successful: bool, counted: bool, now: Time, later: Time)
      requires Channels(View())
      modifies this
      ensures View() == Finished(old(View()), token, successful, counted, now, later)
    {
      tickets := tickets - multiset{token};
      if token !in sessions || sessions[token].expiresAt <= now {
        RemoveSession(token);
        return;
      }
      FinishActive(token, successful, counted, later);
    }

    // Of a session that is still active.
    method FinishActive(token: string, successful: bool, counted: bool, later: Time)
      modifies this
      ensures View() == Concluded(old(View()), token, successful, counted, later)
    {
      if token !in attempts || !attempts[token].inFlight {
        return;
      }
      clock := later;
      if successful {
        attempts := attempts - {token};
        history := history - {token};
        return;
      }
      NoteFailure(token, counted, later);
    }

    method NoteFailure(token: string, counted: bool, now: Time)
      requires token in attempts
      modifies `attempts, `history
      ensures attempts == Stored(old(attempts), token, Unsuccessful(old(attempts)[token], now, counted))
      ensures history == if counted then old(history)[token := old(View()).History(token) + [now]] else old(history)
    {
      var attempt := attempts[token];
      if attempt.windowEnd != UNSET && attempt.windowEnd <= now {
        attempt := attempt.(failures := 0, windowEnd := UNSET);
      }
      attempt := attempt.(inFlight := false);
      if counted {
        if attempt.windowEnd == UNSET {
          attempt := attempt.(windowEnd := now + MINUTE);
        }
        if attempt.failures < MAX_FAILURES {
          attempt := attempt.(failures := attempt.failures + 1);
        }
        history := history[token := View().History(token) + [now]];
      }
      attempts := if attempt.failures == 0 then attempts - {token} else attempts[token := attempt];
    }
  }
}
