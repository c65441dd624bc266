/**
 The subscription service under interleaving: fetchers give up every lock
 between claiming and recording, publications and address moves run in between.
 A step is one critical section. In every reachable state the fetch proof is a
 proof of the body being served, and the cache shows the durable state, unless
 the final check of an address move has failed since it was last primed.
 */
module FetchProof {
  import opened Foundations
  import opened StateTypes
  import opened Platform
  import opened Rendering
  import opened Durable
  import opened Bodies
  import opened Subscriptions

  // An aggregate and a clock reading at which it passed the full check.
  datatype Checked = Checked(state: PersistentState, stamp: Time)

  // publishing holds the prior aggregate from the durable commit of a
  // publication until the mutation lock is released; stamp is a reading at which
  // the stored aggregate passed the full check.
  datatype World = World(durable: PersistentState, cache: Cache, inFlight: multiset<(nat, Key)>,
                         publishing: Option<Checked>, address: string, stamp: Time)

  datatype Step =
    | Claim(generation: nat, hash: Key)
    | Record(generation: nat, hash: Key, at: Time, now: Time, healthy: bool)
    | Commit(plan: CommitPlan, userID: string, planned: Time, entropy: Option<(Key, Key)>, snapshot: RuntimeSnapshot,
             created: Time, checked: Time)
    | Restore(now: Time, healthy: bool)
    | Settle
    | ClearActive
    | SetVerifier(key: Key)
    | Move(target: string, checked: Time)
    | Stall(target: string, written: Time, checked: Time, healthy: bool)

  ghost predicate Next(p: Platform, w: World, step: Step, w': World) {
    match step
    // Claiming needs only the service lock, so it may happen at any time.
    case Claim(generation, hash) =>
      MayClaim(w.cache, generation, hash)
      && w' == w.(cache := w.cache.(fetching := true), inFlight := w.inFlight + multiset{(generation, hash)})
    // Everything below holds the mutation lock as well.
    case Record(generation, hash, at, now, healthy) =>
      w.publishing.None? && (generation, hash) in w.inFlight
      && var outcome := FetchOutcomeOf(p, w.durable, w.cache, generation, hash, at, now, w.address, healthy);
      var after := AfterFetch(p, w.durable, w.cache, generation, hash, at, outcome);
      w' == w.(durable := after.0, cache := after.1, inFlight := w.inFlight - multiset{(generation, hash)},
               stamp := if outcome == Recorded then now else w.stamp)
    // The plan is made under the same hold of the mutation lock.
    case Commit(plan, userID, planned, entropy, snapshot, created, checked) =>
      w.publishing.None? && Plan(p, w.durable, userID, planned, entropy) == Some(plan)
      && var c := Candidate(p, w.durable, plan, snapshot, w.address, created);
      c.Some? && ServedValid(p, c.value, checked, w.address)
      && w' == w.(durable := c.value, cache := Prime(p, c.value, w.cache),
                  publishing := Some(Checked(w.durable, w.stamp)), stamp := checked)
    case Restore(now, healthy) =>
      w.publishing.Some?
      && var prior := w.publishing.value;
      w' == if healthy && StateValid(p, prior.state, now)
            then w.(durable := prior.state, cache := Prime(p, prior.state, w.cache), publishing := None,
                    stamp := prior.stamp)
            else w.(publishing := None)
    case Settle => w' == w.(publishing := None)
    case ClearActive => w.publishing.None? && w' == w.(durable := w.durable.(active := None))
    case SetVerifier(key) => w.publishing.None? && w.durable.verifier.None? && |key| == KEY_SIZE
        && w' == w.(durable := w.durable.(verifier := Some(key)))
    case Move(target, checked) =>
      w.publishing.None? && p.hostPort(target).Some?
      && var moved := Reconciled(p, w.durable, target);
      moved.Some? && ServedValid(p, moved.value, checked, target)
      && w' == w.(durable := moved.value, cache := Prime(p, moved.value, w.cache), address := target, stamp := checked)
    // A move whose final check fails leaves record and address moved.
    case Stall(target, written, checked, healthy) =>
      w.publishing.None? && FailsLast(p, w.durable, target, written, checked, healthy)
      && w' == w.(durable := Reconciled(p, w.durable, target).value, address := target)
  }

  // ---------- the invariant ----------

  // A stored proof is a proof of the stored body under the current generation.
  ghost predicate Exact(p: Platform, s: PersistentState) {
    s.lastGood.fetchedAt != UNSET ==>
      && s.lastGood.fetchedHash == p.bodyHash(s.lastGood.body) && |s.lastGood.fetchedHash| == KEY_SIZE
      && s.lastGood.fetchedGeneration == s.lastGood.generation == s.subscription.number
  }

  ghost predicate CacheShows(p: Platform, s: PersistentState, c: Cache) {
    c.(fetching := false) == Projection(p, s)
  }

  lemma PrimedShows(p: Platform, s: PersistentState, previous: Cache)
    ensures CacheShows(p, s, Prime(p, s, previous))
  {
  }

  // The cache still serves the nodes of the record under the same keys, at an
  // address from which the record has moved without it.
  ghost predicate Behind(p: Platform, s: PersistentState, c: Cache) {
    && s.lastGood.body != "" && s.lastGood.fetchedAt == UNSET
    && c.binding == s.subscription.binding && c.generation == s.subscription.number
    && c.nodeCount == RenderableCount(s.lastGood.nodes)
    && c.body != "" && c.bodyHash == p.bodyHash(c.body)
    && exists address :: RendersAs(p, PersistedLinks(p, s.subscription, s.lastGood.nodes, false), address, c.body)
  }

  ghost predicate Inv(p: Platform, w: World) {
    && (CacheShows(p, w.durable, w.cache) || Behind(p, w.durable, w.cache))
    && ServedValid(p, w.durable, w.stamp, w.address)
    && (w.publishing.Some? ==>
          && CacheShows(p, w.durable, w.cache)
          && ServedValid(p, w.publishing.value.state, w.publishing.value.stamp, w.address))
  }

  // Whatever proof the cache carries, it is one of the body in the cache.
  predicate OwnProof(c: Cache) {
    c.fetchedAt != UNSET ==> c.Proven()
  }

  ghost predicate AllExact(p: Platform, w: World) {
    Exact(p, w.durable) && OwnProof(w.cache) && (w.publishing.Some? ==> Exact(p, w.publishing.value.state))
  }

  // What is valid stays valid as time passes.
  lemma ValidLater(p: Platform, s: PersistentState, t1: Time, t2: Time, address: string)
    requires ServedValid(p, s, t1, address) && t1 <= t2
    ensures ServedValid(p, s, t2, address)
  {
    if s.active.Some? {
      SnapshotValidLater(s.active.value, t1, t2);
    }
  }

  lemma SnapshotValidLater(s: RuntimeSnapshot, t1: Time, t2: Time)
    requires ValidRuntimeSnapshot(s, t1) && t1 <= t2
    ensures ValidRuntimeSnapshot(s, t2)
  {
    forall n | n in s.nodes
      ensures ValidRuntimeNode(n, s.sessions, t2 < s.expiresAt)
    {
      assert ValidRuntimeNode(n, s.sessions, t1 < s.expiresAt);
    }
  }

  // Some node has no session to tunnel with.
  ghost predicate Sessionless(s: RuntimeSnapshot) {
    exists n :: n in s.nodes && s.sessions.For(n.EffectiveProfile()).None?
  }

  lemma ValidBackwards(s: RuntimeSnapshot, checked: Time, now: Time)
    requires ValidRuntimeSnapshot(s, checked) && s.sessions.Valid()
    ensures ValidRuntimeSnapshot(s, now) <==> !(now < s.expiresAt && Sessionless(s))
    ensures checked <= now ==> ValidRuntimeSnapshot(s, now)
  {
    forall n | n in s.nodes
      ensures n.Valid()
    {
      assert ValidRuntimeNode(n, s.sessions, checked < s.expiresAt);
    }
    if ValidRuntimeSnapshot(s, now) && now < s.expiresAt {
      forall n | n in s.nodes
        ensures s.sessions.For(n.EffectiveProfile()).Some?
      {
        assert ValidRuntimeNode(n, s.sessions, true);
      }
    }
    if checked <= now {
      SnapshotValidLater(s, checked, now);
    }
  }

  // At a reading the stored session has run out, or every node has a session.
  ghost predicate Timely(s: PersistentState, now: Time) {
    s.active.Some? && now < s.active.value.expiresAt ==> !Sessionless(s.active.value)
  }

  // What has passed the full check once passes both checks at any reading that
  // is timely, earlier or later, and at no other.
  lemma CheckedAgain(p: Platform, s: PersistentState, stamp: Time, now: Time, address: string)
    requires Lawful(p) && ServedValid(p, s, stamp, address)
    ensures StateValid(p, s, now) <==> Timely(s, now)
    ensures ServedValid(p, s, now, address) <==> Timely(s, now)
  {
    if s.active.Some? {
      assert ValidActive(p, s, s.active.value, stamp);
      assert s.active.value.sessions.Valid();
      ValidBackwards(s.active.value, stamp, now);
      assert ValidActive(p, s, s.active.value, now) <==> Timely(s, now);
    }
  }

  lemma TimelyLater(p: Platform, s: PersistentState, stamp: Time, now: Time, address: string)
    requires Lawful(p) && ServedValid(p, s, stamp, address) && stamp <= now
    ensures Timely(s, now)
  {
    ValidLater(p, s, stamp, now, address);
    CheckedAgain(p, s, stamp, now, address);
  }

  lemma CandidateExact(p: Platform, before: PersistentState, plan: CommitPlan, snapshot: RuntimeSnapshot,
                       address: string, created: Time)
    requires Exact(p, before) && Candidate(p, before, plan, snapshot, address, created).Some?
    ensures Exact(p, Candidate(p, before, plan, snapshot, address, created).value)
  {
  }

  // A valid body moved to another address is a valid body of that address.
  lemma MovedIsServed(p: Platform, s: PersistentState, now: Time, from: string, target: string)
    requires Lawful(p) && ServedValid(p, s, now, from) && Reconciled(p, s, target).Some?
    ensures ServedValid(p, Reconciled(p, s, target).value, now, target)
  {
    var moved := Reconciled(p, s, target).value;
    if s.lastGood.body != "" && moved != s {
      assert forall n | n in s.lastGood.nodes :: n.Valid() && Derivable(p, s.subscription, n);
      RenderedBodyAccepted(p, s.subscription, s.lastGood.nodes, target);
      MovedRecord(p, s, moved, now, target);
    }
  }

  lemma MovedCheckedAgain(p: Platform, s: PersistentState, stamp: Time, from: string, target: string, now: Time)
    requires Lawful(p) && ServedValid(p, s, stamp, from) && Reconciled(p, s, target).Some?
    ensures var moved := Reconciled(p, s, target).value;
            (StateValid(p, moved, now) <==> Timely(s, now)) && (ServedValid(p, moved, now, target) <==> Timely(s, now))
  {
    MovedIsServed(p, s, stamp, from, target);
    ReconciledKeepsSession(p, s, target);
    var moved := Reconciled(p, s, target).value;
    CheckedAgain(p, moved, stamp, now, target);
  }

  lemma ReconciledKeepsSession(p: Platform, s: PersistentState, target: string)
    requires Reconciled(p, s, target).Some?
    ensures forall now :: Timely(Reconciled(p, s, target).value, now) <==> Timely(s, now)
  {
    assert Reconciled(p, s, target).value.active == s.active;
  }

  lemma MovedRecord(p: Platform, s: PersistentState, moved: PersistentState, now: Time, target: string)
    requires AggregateValid(p, s, now) && s.lastGood.body != ""
    requires moved == s.(lastGood := s.lastGood.(body := moved.lastGood.body, fetchedAt := UNSET,
                                                 fetchedGeneration := 0, fetchedHash := []))
    requires ValidBody(p, moved.lastGood.body, s.lastGood.nodes)
    requires BodyAddress(p, moved.lastGood.body).Some?
    requires RendersAs(p, PersistedLinks(p, s.subscription, s.lastGood.nodes, false),
                       BodyAddress(p, moved.lastGood.body).value, moved.lastGood.body)
    requires RendersAs(p, PersistedLinks(p, s.subscription, s.lastGood.nodes, false), target, moved.lastGood.body)
    ensures ServedValid(p, moved, now, target)
  {
    assert ValidLastGood(p, moved.lastGood, s.subscription.number);
    assert BodyMatchesNodes(p, moved);
    if s.active.Some? {
      assert ValidActive(p, moved, s.active.value, now);
      forall n | n in s.active.value.nodes
        ensures ActiveNodeMatches(p, moved, s.active.value.selectors, n)
      {
        assert ActiveNodeMatches(p, s, s.active.value.selectors, n);
      }
    }
  }

  lemma WithoutSession(p: Platform, s: PersistentState, now: Time, address: string)
    requires ServedValid(p, s, now, address)
    ensures ServedValid(p, s.(active := None), now, address)
  {
    if s.lastGood.body != "" {
      assert BodyMatchesNodes(p, s.(active := None));
    }
  }

  lemma RecordPreserves(p: Platform, w: World, generation: nat, hash: Key, at: Time, now: Time, healthy: bool,
                        w': World)
    requires Lawful(p) && Inv(p, w) && Next(p, w, Record(generation, hash, at, now, healthy), w')
    ensures Inv(p, w')
  {
  }

  lemma RecordExact(p: Platform, w: World, generation: nat, hash: Key, at: Time, now: Time, healthy: bool, w': World)
    requires Lawful(p) && AllExact(p, w) && Next(p, w, Record(generation, hash, at, now, healthy), w')
    ensures AllExact(p, w')
  {
    assert |p.bodyHash(w.durable.lastGood.body)| == KEY_SIZE;
  }

  lemma CommitPreserves(p: Platform, w: World, c: PersistentState, checked: Time, w': World)
    requires Inv(p, w) && ServedValid(p, c, checked, w.address)
    requires w' == w.(durable := c, cache := Prime(p, c, w.cache), publishing := Some(Checked(w.durable, w.stamp)),
                      stamp := checked)
    ensures Inv(p, w')
  {
  }

  lemma RestorePreserves(p: Platform, w: World, now: Time, healthy: bool, w': World)
    requires Inv(p, w) && Next(p, w, Restore(now, healthy), w')
    ensures Inv(p, w')
  {
  }

  lemma ClearPreserves(p: Platform, w: World, w': World)
    requires Inv(p, w) && Next(p, w, ClearActive, w')
    ensures Inv(p, w')
  {
    WithoutSession(p, w.durable, w.stamp, w.address);
  }

  lemma MovePreserves(p: Platform, w: World, target: string, checked: Time, w': World)
    requires Inv(p, w) && Next(p, w, Move(target, checked), w')
    ensures Inv(p, w')
  {
  }

  // The moved record passes its checks at the stamp of the old one.
  lemma StallPreserves(p: Platform, w: World, step: Step, w': World)
    requires Lawful(p) && Inv(p, w) && step.Stall? && Next(p, w, step, w')
    ensures Inv(p, w')
  {
    MovedIsServed(p, w.durable, w.stamp, w.address, step.target);
    MoveLeavesBehind(p, w.durable, w.stamp, w.address, step.target, w.cache);
  }

  lemma MoveLeavesBehind(p: Platform, s: PersistentState, stamp: Time, from: string, target: string, c: Cache)
    requires s.lastGood.body != "" ==>
               RendersAs(p, PersistedLinks(p, s.subscription, s.lastGood.nodes, false), from, s.lastGood.body)
    requires CacheShows(p, s, c) || Behind(p, s, c)
    requires Reconciled(p, s, target).Some? && ServedValid(p, Reconciled(p, s, target).value, stamp, target)
    ensures var moved := Reconciled(p, s, target).value; CacheShows(p, moved, c) || Behind(p, moved, c)
  {
    var moved := Reconciled(p, s, target).value;
    if moved != s {
      assert moved.lastGood.nodes == s.lastGood.nodes && moved.subscription == s.subscription;
      assert moved.lastGood.generation == s.subscription.number != 0;
      if CacheShows(p, s, c) {
        assert c.body == s.lastGood.body;
      }
    }
  }

  // The two readings of a move decide it: the write, if there is one, and the
  // final check pass exactly where they are timely. A record whose nodes all have
  // a session, or that has none, never fails here, whatever the clock does.
  lemma MoveFailsExactly(p: Platform, w: World, target: string, written: Time, checked: Time, healthy: bool)
    requires Lawful(p) && Inv(p, w)
    ensures Movable(p, w.durable, target, written, healthy) <==>
            && Reconciled(p, w.durable, target).Some?
            && (Reconciled(p, w.durable, target).value == w.durable || (healthy && Timely(w.durable, written)))
    ensures Servable(p, w.durable, target, written, checked, healthy) <==>
            Movable(p, w.durable, target, written, healthy) && Timely(w.durable, checked)
    ensures FailsLast(p, w.durable, target, written, checked, healthy) <==>
            && p.hostPort(target).Some? && Movable(p, w.durable, target, written, healthy)
            && !Timely(w.durable, checked)
    ensures !Timely(w.durable, checked) ==> checked < w.stamp
  {
    if w.stamp <= checked {
      TimelyLater(p, w.durable, w.stamp, checked, w.address);
    }
    if Reconciled(p, w.durable, target).Some? {
      MovedCheckedAgain(p, w.durable, w.stamp, w.address, target, written);
      MovedCheckedAgain(p, w.durable, w.stamp, w.address, target, checked);
    }
  }

  lemma VerifierPreserves(p: Platform, w: World, key: Key, w': World)
    requires Inv(p, w) && Next(p, w, SetVerifier(key), w')
    ensures Inv(p, w')
  {
  }

  lemma StepPreserves(p: Platform, w: World, step: Step, w': World)
    requires Lawful(p) && Inv(p, w) && Next(p, w, step, w')
    ensures Inv(p, w')
  {
    match step
    case Claim(_, _) =>
    case Record(generation, hash, at, now, healthy) => RecordPreserves(p, w, generation, hash, at, now, healthy, w');
    case Commit(plan, userID, planned, entropy, snapshot, created, checked) => CommitPreserves(p, w, w'.durable,
            checked, w');
    case Restore(now, healthy) => RestorePreserves(p, w, now, healthy, w');
    case Settle =>
    case ClearActive => ClearPreserves(p, w, w');
    case SetVerifier(key) => VerifierPreserves(p, w, key, w');
    case Move(target, checked) => MovePreserves(p, w, target, checked, w');
    case Stall(_, _, _, _) => StallPreserves(p, w, step, w');
  }

  lemma StepKeepsExact(p: Platform, w: World, step: Step, w': World)
    requires Lawful(p) && AllExact(p, w) && Next(p, w, step, w')
    ensures AllExact(p, w')
  {
    match step
    case Record(generation, hash, at, now, healthy) => RecordExact(p, w, generation, hash, at, now, healthy, w');
    case Commit(plan, userID, planned, entropy, snapshot, created, checked) =>
      CandidateExact(p, w.durable, plan, snapshot, w.address, created);
      PrimedOwnProof(p, w'.durable, w.cache);
    case Restore(_, _) => RestoreExact(p, w, step, w');
    case Move(target, _) => MoveExact(p, w, step, w');
    case Stall(_, _, _, _) => MoveExact(p, w, step, w');
    case _ =>
  }

  lemma PrimedOwnProof(p: Platform, s: PersistentState, previous: Cache)
    requires Exact(p, s)
    ensures OwnProof(Prime(p, s, previous))
  {
  }

  lemma RestoreExact(p: Platform, w: World, step: Step, w': World)
    requires AllExact(p, w) && step.Restore? && Next(p, w, step, w')
    ensures AllExact(p, w')
  {
    PrimedOwnProof(p, w.publishing.value.state, w.cache);
  }

  lemma MoveExact(p: Platform, w: World, step: Step, w': World)
    requires AllExact(p, w) && (step.Move? || step.Stall?) && Next(p, w, step, w')
    ensures AllExact(p, w')
  {
    assert Exact(p, w'.durable);
    PrimedOwnProof(p, w'.durable, w.cache);
  }

  // ---------- runs ----------

  ghost predicate Opening(p: Platform, w: World) {
    && w.cache == Projection(p, w.durable) && w.inFlight == multiset{} && w.publishing.None?
    && ServedValid(p, w.durable, w.stamp, w.address)
  }

  ghost predicate Follows(p: Platform, run: seq<World>, steps: seq<Step>, i: nat)
    requires i < |steps| && |run| == |steps| + 1
  {
    Next(p, run[i], steps[i], run[i + 1])
  }

  ghost predicate OpensAt(p: Platform, run: seq<World>, i: nat)
    requires i < |run|
  {
    i == 0 ==> Opening(p, run[i])
  }

  ghost predicate IsRun(p: Platform, run: seq<World>, steps: seq<Step>) {
    && |run| == |steps| + 1 && (forall i | 0 <= i < |run| :: OpensAt(p, run, i))
    && forall i | 0 <= i < |steps| :: Follows(p, run, steps, i)
  }

  lemma RunLinked(p: Platform, run: seq<World>, steps: seq<Step>)
    requires IsRun(p, run, steps)
    ensures Linked((w, step, w') => Next(p, w, step, w'), run, steps) && Opening(p, run[0])
  {
    assert OpensAt(p, run, 0);
    forall i, j | 0 <= i < |steps| && j == i + 1
      ensures Next(p, run[i], steps[i], run[j])
    {
      assert Follows(p, run, steps, i);
    }
  }

  // A run as it is written down.
  datatype Ledger = Ledger(run: seq<World>, steps: seq<Step>) {
    function Last(): World
      requires run != []
    {
      run[|run| - 1]
    }

    // The fetchers under way.
    function InFlight(): multiset<(nat, Key)> {
      if run == [] then multiset{} else Last().inFlight
    }

    function Then(step: Step, w: World): Ledger {
      Ledger(run + [w], steps + [step])
    }

    predicate Extends(older: Ledger) {
      older.run <= run && older.steps <= steps
    }
  }

  ghost predicate IsLedger(p: Platform, l: Ledger) {
    IsRun(p, l.run, l.steps)
  }

  lemma LedgerThen(p: Platform, l: Ledger, step: Step, w: World)
    requires IsLedger(p, l) && Next(p, l.Last(), step, w)
    ensures IsLedger(p, l.Then(step, w)) && l.Then(step, w).Last() == w && l.Then(step, w).Extends(l)
  {
    var next := l.Then(step, w);
    forall i | 0 <= i < |next.steps|
      ensures Follows(p, next.run, next.steps, i)
    {
      LongerFollows(p, l, step, w, i);
    }
    LongerOpens(p, l, step, w);
  }

  lemma LongerFollows(p: Platform, l: Ledger, step: Step, w: World, i: nat)
    requires IsLedger(p, l) && Next(p, l.Last(), step, w) && i <= |l.steps|
    ensures Follows(p, l.Then(step, w).run, l.Then(step, w).steps, i)
  {
    if i < |l.steps| {
      assert Follows(p, l.run, l.steps, i);
    }
  }

  lemma LongerOpens(p: Platform, l: Ledger, step: Step, w: World)
    requires IsLedger(p, l)
    ensures forall i | 0 <= i < |l.Then(step, w).run| :: OpensAt(p, l.Then(step, w).run, i)
  {
    assert OpensAt(p, l.run, 0);
    assert l.Then(step, w).run[0] == l.run[0];
  }

  lemma LedgerGrows(a: Ledger, b: Ledger, c: Ledger)
    requires b.Extends(a) && c.Extends(b)
    ensures c.Extends(a)
  {
  }

  lemma LedgerValid(p: Platform, l: Ledger)
    requires Lawful(p) && IsLedger(p, l)
    ensures Inv(p, l.Last())
  {
    InvAlways(p, l.run, l.steps, |l.run| - 1);
  }

  lemma InvAlways(p: Platform, run: seq<World>, steps: seq<Step>, i: nat)
    requires Lawful(p) && IsRun(p, run, steps) && i < |run|
    ensures Inv(p, run[i]) && (Exact(p, run[0].durable) ==> AllExact(p, run[i]))
  {
    var next := (w, step, w') => Next(p, w, step, w');
    var exact := Exact(p, run[0].durable);
    var inv := w => Inv(p, w) && (exact ==> AllExact(p, w));
    forall w, step, w' | inv(w) && next(w, step, w')
      ensures inv(w')
    {
      StepPreserves(p, w, step, w');
      if exact {
        StepKeepsExact(p, w, step, w');
      }
    }
    RunLinked(p, run, steps);
    HoldsThroughout(next, inv, run, steps, i);
  }

  // What the browser is told: reload unless this exact body was fetched.
  predicate ReloadRecommended(c: Cache) {
    c.body != "" && !c.Proven()
  }

  // In every reachable state the stored aggregate passes both checks and the
  // cache serves the stored body, or, behind a move that failed its final check,
  // the body of the same nodes at an earlier address. A stored proof is the hash
  // of the stored body under the current generation, and a reload is recommended
  // exactly when no fetch of what is served is on record, if the first aggregate
  // was so: neither validator compares a stored proof with the body.
  lemma ProofIsExact(p: Platform, run: seq<World>, steps: seq<Step>, i: nat)
    requires Lawful(p) && IsRun(p, run, steps) && i < |run|
    ensures ServedValid(p, run[i].durable, run[i].stamp, run[i].address)
    ensures CacheShows(p, run[i].durable, run[i].cache) || Behind(p, run[i].durable, run[i].cache)
    ensures CacheShows(p, run[i].durable, run[i].cache) ==> run[i].cache.body == run[i].durable.lastGood.body
    ensures Exact(p, run[0].durable) ==>
              && Exact(p, run[i].durable)
              && (ReloadRecommended(run[i].cache) <==> run[i].cache.body != "" && run[i].cache.fetchedAt == UNSET)
              && (CacheShows(p, run[i].durable, run[i].cache) ==>
                    run[i].cache.fetchedAt == run[i].durable.lastGood.fetchedAt)
  {
    InvAlways(p, run, steps, i);
  }

  lemma {:induction false} CountsAgree(nodes: seq<PersistedNode>)
    requires forall n | n in nodes :: n.Valid()
    ensures RenderableCount(nodes) == Count(nodes, false)
  {
    if nodes != [] {
      CountsAgree(nodes[..|nodes| - 1]);
      assert nodes[|nodes| - 1] in nodes;
    }
  }

  lemma ServedRecord(p: Platform, s: PersistentState, now: Time, address: string)
    requires ServedValid(p, s, now, address) && s.lastGood.body != ""
    ensures forall n | n in s.lastGood.nodes :: n.Valid() && Derivable(p, s.subscription, n)
    ensures RendersAs(p, PersistedLinks(p, s.subscription, s.lastGood.nodes, false), address, s.lastGood.body)
    ensures Projection(p, s).body == s.lastGood.body
    ensures Projection(p, s).nodeCount == RenderableCount(s.lastGood.nodes)
  {
    assert forall n | n in s.lastGood.nodes :: Derived(p, s.subscription, n);
  }

  // Who fetches the body of a record finds exactly the stored nodes that can be
  // tunnelled to, at the listener's address and with working credentials; the
  // cache counts them.
  lemma ServedBodyOffers(p: Platform, s: PersistentState, now: Time, address: string)
    requires Lawful(p) && ServedValid(p, s, now, address) && s.lastGood.body != ""
    ensures var text := p.decode(Projection(p, s).body);
            && text.Some? && text.value != "" && p.hostPort(address).Some?
            && var (lines, host) := (Split(text.value[..|text.value| - 1], '\n'), p.hostPort(address).value);
            && |lines| == Projection(p, s).nodeCount
            && (forall line | line in lines ::
                  exists n :: n in s.lastGood.nodes && n.Renderable() && Offers(p, s.subscription, line, n, host))
            && (forall n | n in s.lastGood.nodes && n.Renderable() ::
                  exists line :: line in lines && Offers(p, s.subscription, line, n, host))
  {
    ServedRecord(p, s, now, address);
    CountsAgree(s.lastGood.nodes);
    BodyOffers(p, s.subscription, s.lastGood.nodes, address);
  }

  // Only a move that fails its final check leaves the cache behind.
  lemma ShownUnlessStalled(p: Platform, run: seq<World>, steps: seq<Step>, i: nat)
    requires Lawful(p) && IsRun(p, run, steps) && i < |run|
    requires forall j | 0 <= j < |steps| :: !steps[j].Stall?
    ensures CacheShows(p, run[i].durable, run[i].cache)
  {
    var next := (w, step: Step, w') => Next(p, w, step, w') && !step.Stall?;
    var inv := w => Inv(p, w) && CacheShows(p, w.durable, w.cache);
    forall w, step, w' | inv(w) && next(w, step, w')
      ensures inv(w')
    {
      StepPreserves(p, w, step, w');
      StepShows(p, w, step, w');
    }
    RunLinked(p, run, steps);
    HoldsThroughout(next, inv, run, steps, i);
  }

  lemma StepShows(p: Platform, w: World, step: Step, w': World)
    requires CacheShows(p, w.durable, w.cache) && Next(p, w, step, w') && !step.Stall?
    ensures CacheShows(p, w'.durable, w'.cache)
  {
  }

  // An aggregate with a proof passes both checks with any other hash of the same
  // length as well, so the premise about the first aggregate is needed.
  lemma ProofNotCompared(p: Platform, s: PersistentState, now: Time, address: string, hash: Key)
    requires ServedValid(p, s, now, address) && s.lastGood.fetchedAt != UNSET && |hash| == KEY_SIZE
    ensures var other := s.(lastGood := s.lastGood.(fetchedHash := hash));
            ServedValid(p, other, now, address) && (hash != p.bodyHash(s.lastGood.body) ==> !Exact(p, other))
  {
    var other := s.(lastGood := s.lastGood.(fetchedHash := hash));
    assert ValidLastGood(p, other.lastGood, s.subscription.number);
    assert BodyMatchesNodes(p, other);
    if s.active.Some? {
      assert ValidActive(p, other, s.active.value, now);
      forall n | n in s.active.value.nodes
        ensures ActiveNodeMatches(p, other, s.active.value.selectors, n)
      {
        assert ActiveNodeMatches(p, s, s.active.value.selectors, n);
      }
    }
  }

  // ---------- the claim is never orphaned ----------

  // Somebody is still on the way to record what the flag claims, or it is recorded.
  ghost predicate Accounted(w: World) {
    && (w.cache.fetching ==>
          w.cache.body != "" && ((w.cache.generation, w.cache.bodyHash) in w.inFlight || w.cache.Proven()))
    && (w.publishing.Some? ==> SameProof(w.publishing.value.state, w.durable))
  }

  // A publication of the same body for the same account has no proof that its
  // predecessor does not have.
  ghost predicate SameProof(before: PersistentState, after: PersistentState) {
    before.subscription.number == after.subscription.number && before.subscription.binding == after.subscription.binding
    && before.lastGood.body == after.lastGood.body && after.lastGood.fetchedAt != UNSET
    ==> before.lastGood.fetchedAt != UNSET
  }

  // No two successive bodies share a hash by accident.
  ghost predicate HashTells(p: Platform, w: World, w': World) {
    p.bodyHash(w.durable.lastGood.body) == p.bodyHash(w'.durable.lastGood.body) ==>
      w.durable.lastGood.body == w'.durable.lastGood.body
  }

  // Priming keeps an accounted claim accounted if the proof goes only with the body.
  lemma PrimeAccounts(p: Platform, w: World, next: PersistentState)
    requires CacheShows(p, w.durable, w.cache) && Accounted(w)
    requires Exact(p, next)
    requires w.durable.lastGood.body == next.lastGood.body && w.durable.lastGood.fetchedAt != UNSET
             && w.durable.subscription.number == next.subscription.number
                 && w.durable.subscription.binding == next.subscription.binding
             ==> next.lastGood.fetchedAt != UNSET
    requires p.bodyHash(w.durable.lastGood.body) == p.bodyHash(next.lastGood.body) ==>
               w.durable.lastGood.body == next.lastGood.body
    ensures var c := Prime(p, next, w.cache);
            c.fetching ==> c.body != "" && ((c.generation, c.bodyHash) in w.inFlight || c.Proven())
  {
  }

  lemma CandidateProof(p: Platform, before: PersistentState, plan: CommitPlan, userID: string, planned: Time,
                       entropy: Option<(Key, Key)>, snapshot: RuntimeSnapshot, address: string, created: Time)
    requires Plan(p, before, userID, planned, entropy) == Some(plan)
    requires Candidate(p, before, plan, snapshot, address, created).Some? && Exact(p, before)
    ensures var c := Candidate(p, before, plan, snapshot, address, created).value;
            && SameProof(before, c)
            && (before.subscription.number == c.subscription.number
                && before.subscription.binding == c.subscription.binding
                && before.lastGood.body == c.lastGood.body && before.lastGood.fetchedAt != UNSET
                ==> c.lastGood.fetchedAt != UNSET)
  {
  }

  // A step that brings back, without its proof, the body a lagging cache shows,
  // while the flag claims a record that nobody is on the way to make.
  ghost predicate Orphans(p: Platform, w: World, step: Step, w': World) {
    && (step.Move? || step.Commit?) && !CacheShows(p, w.durable, w.cache)
    && w.cache.fetching && (w.cache.generation, w.cache.bodyHash) !in w.inFlight
    && w'.durable.subscription.binding == w.cache.binding && w'.durable.subscription.number == w.cache.generation
    && p.bodyHash(w'.durable.lastGood.body) == w.cache.bodyHash
  }

  lemma RecordAccounts(p: Platform, w: World, step: Step, w': World)
    requires step.Record? && Inv(p, w) && Accounted(w) && Next(p, w, step, w')
    ensures Accounted(w')
  {
    var outcome := FetchOutcomeOf(p, w.durable, w.cache, step.generation, step.hash, step.at, step.now, w.address,
                                  step.healthy);
    if outcome == Recorded {
      assert w'.cache == Prime(p, w'.durable, w.cache);
      assert |p.bodyHash(w.durable.lastGood.body)| == KEY_SIZE;
    }
  }

  lemma MoveAccounts(p: Platform, w: World, step: Step, w': World)
    requires Inv(p, w) && AllExact(p, w') && Accounted(w) && step.Move? && Next(p, w, step, w')
    requires CacheShows(p, w.durable, w.cache) && HashTells(p, w, w')
    ensures Accounted(w')
  {
    assert w'.durable.lastGood.body == w.durable.lastGood.body ==>
             w'.durable == w.durable || w'.durable.lastGood.fetchedAt == UNSET;
    PrimeAccounts(p, w, w'.durable);
  }

  lemma CommitAccounts(p: Platform, w: World, step: Step, w': World)
    requires step.Commit? && Inv(p, w) && AllExact(p, w) && Accounted(w) && Next(p, w, step, w')
    requires CacheShows(p, w.durable, w.cache) && HashTells(p, w, w')
    ensures Accounted(w')
  {
    CandidateExact(p, w.durable, step.plan, step.snapshot, w.address, step.created);
    CandidateProof(p, w.durable, step.plan, step.userID, step.planned, step.entropy, step.snapshot, w.address,
                   step.created);
    PrimeAccounts(p, w, w'.durable);
  }

  // Behind a move that failed, no step but a fetch record brings a proof.
  lemma UnprovenNext(p: Platform, w: World, step: Step, w': World)
    requires w.durable.lastGood.fetchedAt == UNSET && (step.Move? || step.Commit?) && Next(p, w, step, w')
    ensures w'.durable.lastGood.fetchedAt == UNSET && w'.cache == Prime(p, w'.durable, w.cache)
    ensures w'.inFlight == w.inFlight
  {
  }

  lemma BehindAccounts(p: Platform, w: World, step: Step, w': World)
    requires Inv(p, w) && AllExact(p, w) && Accounted(w) && (step.Move? || step.Commit?) && Next(p, w, step, w')
    requires !CacheShows(p, w.durable, w.cache)
    ensures Accounted(w') <==> !Orphans(p, w, step, w')
  {
    UnprovenNext(p, w, step, w');
    assert |w.cache.binding| == KEY_SIZE;
    if step.Commit? {
      CandidateProof(p, w.durable, step.plan, step.userID, step.planned, step.entropy, step.snapshot, w.address,
                     step.created);
    }
  }

  lemma RestoreAccounts(p: Platform, w: World, now: Time, healthy: bool, w': World)
    requires Inv(p, w) && AllExact(p, w) && Accounted(w) && HashTells(p, w, w') && Next(p, w, Restore(now, healthy), w')
    ensures Accounted(w')
  {
    if healthy && StateValid(p, w.publishing.value.state, now) {
      PrimeAccounts(p, w, w.publishing.value.state);
    }
  }

  lemma StepAccounts(p: Platform, w: World, step: Step, w': World)
    requires Lawful(p) && Inv(p, w) && AllExact(p, w) && Accounted(w) && Next(p, w, step, w') && HashTells(p, w, w')
    ensures Accounted(w') <==> !Orphans(p, w, step, w')
  {
    match step
    case Record(_, _, _, _, _) => RecordAccounts(p, w, step, w');
    case Restore(now, healthy) => RestoreAccounts(p, w, now, healthy, w');
    case Commit(_, _, _, _, _, _, _) =>
      if CacheShows(p, w.durable, w.cache) {
        CommitAccounts(p, w, step, w');
      } else {
        BehindAccounts(p, w, step, w');
      }
    case Move(_, _) =>
      if CacheShows(p, w.durable, w.cache) {
        StepKeepsExact(p, w, step, w');
        MoveAccounts(p, w, step, w');
      } else {
        BehindAccounts(p, w, step, w');
      }
    case _ =>
  }

  ghost predicate OrphansAt(p: Platform, run: seq<World>, steps: seq<Step>, i: nat)
    requires i < |steps| && |run| == |steps| + 1
  {
    Orphans(p, run[i], steps[i], run[i + 1])
  }

  // Along any run without accidental hash collisions, a set flag never keeps a
  // fetch of the body being served from being recorded, for either a fetcher is
  // still on its way for this body or the proof is already there: exactly if no
  // step brings back a body that the cache still shows behind a failed move.
  lemma ClaimNeverOrphaned(p: Platform, run: seq<World>, steps: seq<Step>)
    requires Lawful(p) && IsRun(p, run, steps) && Exact(p, run[0].durable)
    requires forall j, k | 0 <= j < |steps| && k == j + 1 :: HashTells(p, run[j], run[k])
    ensures (forall i | 0 <= i < |run| :: Accounted(run[i])) <==>
            (forall j | 0 <= j < |steps| :: !OrphansAt(p, run, steps, j))
    ensures (forall j | 0 <= j < |steps| :: !steps[j].Stall?) ==> forall i | 0 <= i < |run| :: Accounted(run[i])
  {
    if forall j | 0 <= j < |steps| :: !OrphansAt(p, run, steps, j) {
      forall i | 0 <= i < |run|
        ensures Accounted(run[i])
      {
        AccountedUnlessOrphaned(p, run, steps, i);
      }
    } else {
      var j :| 0 <= j < |steps| && OrphansAt(p, run, steps, j);
      InvAlways(p, run, steps, j);
      assert Follows(p, run, steps, j);
      if Accounted(run[j]) {
        StepAccounts(p, run[j], steps[j], run[j + 1]);
      }
      if forall k | 0 <= k < |steps| :: !steps[k].Stall? {
        ShownUnlessStalled(p, run, steps, j);
      }
    }
  }

  lemma AccountedUnlessOrphaned(p: Platform, run: seq<World>, steps: seq<Step>, i: nat)
    requires Lawful(p) && IsRun(p, run, steps) && i < |run| && Exact(p, run[0].durable)
    requires forall j, k | 0 <= j < |steps| && k == j + 1 :: HashTells(p, run[j], run[k])
    requires forall j | 0 <= j < |steps| :: !OrphansAt(p, run, steps, j)
    ensures Accounted(run[i])
  {
    var next := (w, step, w') => Next(p, w, step, w') && HashTells(p, w, w') && !Orphans(p, w, step, w');
    var inv := w => Inv(p, w) && AllExact(p, w) && Accounted(w);
    forall w, step, w' | inv(w) && next(w, step, w')
      ensures inv(w')
    {
      StepPreserves(p, w, step, w');
      StepKeepsExact(p, w, step, w');
      StepAccounts(p, w, step, w');
    }
    InvAlways(p, run, steps, 0);
    RunLinked(p, run, steps);
    forall j, k | 0 <= j < |steps| && k == j + 1
      ensures next(run[j], steps[j], run[k])
    {
      assert Follows(p, run, steps, j) && !OrphansAt(p, run, steps, j);
    }
    HoldsThroughout(next, inv, run, steps, i);
  }

  // ---------- republishing ----------

  lemma RemoveAt<T>(s: seq<T>, k: nat)
    requires k < |s|
    ensures multiset(s[..k] + s[k + 1..]) == multiset(s) - multiset{s[k]}
  {
    assert s == s[..k] + [s[k]] + s[k + 1..];
  }

  lemma LinkWithdrawn(p: Platform, g: SubscriptionGeneration, s: seq<Node>, k: nat)
    requires k < |s|
    ensures multiset(NodeLinks(p, g, s)) == multiset(NodeLinks(p, g, s[..k] + s[k + 1..])) + multiset{NodeLink(p, g,
            s[k])}
  {
    var links := NodeLinks(p, g, s);
    RemoveAt(links, k);
    assert NodeLinks(p, g, s[..k] + s[k + 1..]) == links[..k] + links[k + 1..];
  }

  lemma {:induction false} LinksPermute(p: Platform, g: SubscriptionGeneration, a: seq<Node>, b: seq<Node>)
    requires multiset(a) == multiset(b)
    ensures multiset(NodeLinks(p, g, a)) == multiset(NodeLinks(p, g, b))
    decreases |a|
  {
    if a == [] {
      assert b == [] by { assert |b| == |multiset(b)| == 0; }
    } else {
      var n := a[0];
      assert n in multiset(b);
      var k :| 0 <= k < |b| && b[k] == n;
      var (restA, restB) := (a[..0] + a[1..], b[..k] + b[k + 1..]);
      assert multiset(restA) == multiset(restB) by {
        RemoveAt(a, 0);
        RemoveAt(b, k);
      }
      LinksPermute(p, g, restA, restB);
      LinkWithdrawn(p, g, a, 0);
      LinkWithdrawn(p, g, b, k);
    }
  }

  // Publishing the same nodes again, in whatever order they come, keeps the
  // body, its creation time and its fetch proof.
  lemma RepublishKeepsProof(p: Platform, lg: LastGood, g: SubscriptionGeneration, a: seq<Node>, b: seq<Node>,
                            address: string, t1: Time, t2: Time)
    requires multiset(a) == multiset(b)
    requires NextLastGood(p, lg, g, a, address, t1).Some?
    ensures var first := NextLastGood(p, lg, g, a, address, t1).value;
            forall proved: LastGood | proved.body == first.body && proved.generation == first.generation ::
              NextLastGood(p, proved, g, b, address, t2) == Some(proved.(nodes := PersistAll(p, g, b)))
  {
    LinksPermute(p, g, a, b);
    NodeLinksCoherent(p, g, a);
    RenderedOrderFree(p, NodeLinks(p, g, a), NodeLinks(p, g, b), address);
    assert forall n :: n in a <==> n in multiset(a);
    assert forall n :: n in b <==> n in multiset(b);
    assert AllDerivable(p, g, b);
  }
}
