/**
 The authority shared by the control plane and the SOCKS handlers, one atomic
 change at a time: manager critical sections and swaps of the registry pointer.
 Every writer holds the mutation lock, so a publication runs its changes in a
 row; handlers may look in between (internal/app/runtime.go,
 internal/app/selector_coordinator.go, internal/state/manager.go).
 */
module Control {
  import opened Foundations
  import opened StateTypes
  import opened Platform
  import opened Credentials
  import opened Manager

  // How far a publication has come: nothing under way, generation installed in
  // the manager, or registry swapped as well.
  datatype Stage = Idle | Installed(before: SubscriptionGeneration) | Swapped(before: SubscriptionGeneration,
          previous: Registry)

  datatype Control = Control(m: ManagerState, socks: Registry, nextId: nat, stage: Stage) {
    // The generation behind the snapshot being served.
    function Standing(): SubscriptionGeneration {
      if stage.Idle? then m.subscription else stage.before
    }

    // Registries that can still authenticate somebody now or after a rollback.
    predicate Alive(id: nat) {
      socks.id == id || (stage.Swapped? && stage.previous.id == id)
    }
  }

  datatype Change =
    | Start(op: Operation)
    | Sync
    | Complete(lease: nat, op: Operation, outcome: Outcome, now: Time)
    | LogOff
    | Lapse(now: Time)
    | SetKey(key: Key)
    | Reprobe(snapshot: RuntimeSnapshot, now: Time)
    | Install(candidate: SubscriptionGeneration, userID: string)
    | Swap(registry: Registry)
    | Publish(snapshot: RuntimeSnapshot, now: Time)
    | RestoreRegistry
    | RestoreManager

  ghost predicate RefersOnlyTo(selectors: Selectors, generation: nat) {
    forall name | name in selectors :: selectors[name].generation == generation
  }

  ghost predicate Changes(p: Platform, c: Control, change: Change, c': Control) {
    match change
    case Start(op) => c.stage.Idle? && Begin(c.m, op).Ok? && c' == c.(m := Begin(c.m, op).value)
    case Sync => c.stage.Idle? && Transition(c.m, Syncing).Ok? && c' == c.(m := Transition(c.m, Syncing).value)
    case Complete(lease, op, outcome, now) => c.stage.Idle? && c' == c.(m := Finish(c.m, lease, op, outcome, now))
    case LogOff => c.stage.Idle? && c' == c.(m := SignOut(c.m))
    case Lapse(now) => c.stage.Idle? && Expire(c.m, now).Ok? && c' == c.(m := Expire(c.m, now).value)
    case SetKey(key) => c.stage.Idle? && c.m.key.None? && |key| == KEY_SIZE && c' == c.(m := c.m.(key := Some(key)))
    // A probe republishes the current snapshot with another health record.
    case Reprobe(s, now) =>
      && c.stage.Idle? && CommitProblem(p, c.m, s, now).None?
      && c.m.snapshot.Some? && s.sessions == c.m.snapshot.value.sessions && s.selectors == c.m.snapshot.value.selectors
      && c' == c.(m := Committed(c.m, s))
    case Install(candidate, userID) =>
      && c.stage.Idle? && Installable(p, c.m, candidate, userID)
      && c' == c.(m := c.m.(subscription := candidate), stage := Installed(c.m.subscription))
    case Swap(registry) =>
      && c.stage.Installed? && NewRegistry(c.nextId, c.m.subscription) == Some(registry)
      && c' == c.(socks := registry, nextId := c.nextId + 1, stage := Swapped(c.stage.before, c.socks))
    case Publish(s, now) =>
      && c.stage.Swapped? && CommitProblem(p, c.m, s, now).None? && RefersOnlyTo(s.selectors, c.m.subscription.number)
      && c' == c.(m := Committed(c.m, s), stage := Idle)
    case RestoreRegistry =>
      c.stage.Swapped? && c' == c.(socks := c.stage.previous, stage := Installed(c.stage.before))
    case RestoreManager =>
      c.stage.Installed? && c' == c.(m := Reinstalled(c.m, c.m.subscription, c.stage.before), stage := Idle)
  }

  // ---------- the invariant ----------

  // A snapshot with sessions refers to one generation and belongs to its account.
  ghost predicate Backed(p: Platform, m: ManagerState, g: SubscriptionGeneration) {
    m.HoldsSessions() ==>
      RefersOnlyTo(m.snapshot.value.selectors, g.number) && BoundTo(p, g, m.key, m.snapshot.value.sessions.UserID())
  }

  predicate Succeeds(before: SubscriptionGeneration, after: SubscriptionGeneration) {
    before.number == after.number ==> before.SameKeys(after)
  }

  ghost predicate Sound(p: Platform, c: Control) {
    && c.socks.id < c.nextId
    && Backed(p, c.m, c.Standing())
    && match c.stage
       case Idle => c.socks.Holds(c.m.subscription)
       case Installed(before) => c.socks.Holds(before) && Succeeds(before, c.m.subscription)
       case Swapped(before, previous) =>
         previous.Holds(before) && c.socks.Holds(c.m.subscription) && Succeeds(before, c.m.subscription)
             && previous.id < c.socks.id
  }

  lemma ChangeKeepsSound(p: Platform, c: Control, change: Change, c': Control)
    requires Sound(p, c) && Changes(p, c, change, c')
    ensures Sound(p, c')
  {
    assert !WIPED.Valid();
  }

  // ---------- registries over time ----------

  // Whatever is alive under the identity of r is r.
  predicate Faithful(c: Control, r: Registry) {
    && r.id < c.nextId
    && (c.socks.id == r.id ==> c.socks == r)
    && (c.stage.Swapped? && c.stage.previous.id == r.id ==> c.stage.previous == r)
  }

  predicate Abandoned(c: Control, r: Registry) {
    r.id < c.nextId && !c.Alive(r.id)
  }

  lemma ChangeKeepsRegistry(p: Platform, c: Control, change: Change, c': Control, r: Registry)
    requires Changes(p, c, change, c')
    ensures Faithful(c, r) ==> Faithful(c', r)
    ensures Abandoned(c, r) ==> Abandoned(c', r)
  {
  }

  // What a publication leaves behind: success abandons the old registry, a
  // rollback the new one.
  lemma PublicationAbandons(p: Platform, c: Control, change: Change, c': Control)
    requires Sound(p, c) && Changes(p, c, change, c')
    ensures change.Publish? ==> Abandoned(c', c.stage.previous)
    ensures change.RestoreRegistry? ==> Abandoned(c', c.socks)
  {
  }

  // A pin is only issued under the standing generation, and a registry that is
  // alive and carries the pin's generation has the standing keys.
  lemma PinUnderStanding(p: Platform, c: Control, r: Registry, selector: string, now: Time)
    requires Sound(p, c) && Faithful(c, r) && c.Alive(r.id)
    requires CompactPin(c.m, selector, r.generation, now).Ok?
    ensures r.Holds(c.Standing())
    ensures BoundTo(p, c.Standing(), c.m.key, CompactPin(c.m, selector, r.generation, now).value.session.userID)
  {
    var pin := CompactPin(c.m, selector, r.generation, now).value;
    var s := c.m.snapshot.value;
    assert s.selectors[selector].generation == c.Standing().number;
    assert pin.session.userID == s.sessions.UserID();
  }

  // ---------- histories ----------

  datatype History = History(states: seq<Control>, changes: seq<Change>) {
    function Last(): Control
      requires states != []
    {
      states[|states| - 1]
    }

    function Then(change: Change, c: Control): History {
      History(states + [c], changes + [change])
    }

    predicate Extends(earlier: History) {
      earlier.states <= states && earlier.changes <= changes
    }
  }

  ghost predicate Follows(p: Platform, h: History, i: nat)
    requires i < |h.changes| && |h.states| == |h.changes| + 1
  {
    Changes(p, h.states[i], h.changes[i], h.states[i + 1])
  }

  ghost predicate OpensAt(p: Platform, h: History, i: nat)
    requires i < |h.states|
  {
    i == 0 ==> Sound(p, h.states[i])
  }

  ghost predicate IsHistory(p: Platform, h: History) {
    && |h.states| == |h.changes| + 1 && (forall i | 0 <= i < |h.states| :: OpensAt(p, h, i))
    && forall i | 0 <= i < |h.changes| :: Follows(p, h, i)
  }

  lemma HistoryThen(p: Platform, h: History, change: Change, c: Control)
    requires IsHistory(p, h) && Changes(p, h.Last(), change, c)
    ensures IsHistory(p, h.Then(change, c)) && h.Then(change, c).Last() == c && h.Then(change, c).Extends(h)
  {
    var next := h.Then(change, c);
    forall i | 0 <= i < |next.changes|
      ensures Follows(p, next, i)
    {
      if i < |h.changes| {
        assert Follows(p, h, i);
        assert next.states[i] == h.states[i] && next.states[i + 1] == h.states[i + 1];
      }
    }
    assert OpensAt(p, h, 0);
    forall i | 0 <= i < |next.states|
      ensures OpensAt(p, next, i)
    {
    }
  }

  lemma HistoryGrows(a: History, b: History, c: History)
    requires b.Extends(a) && c.Extends(b)
    ensures c.Extends(a)
  {
  }

  lemma {:induction false} SoundThroughout(p: Platform, h: History, i: nat)
    requires IsHistory(p, h) && i < |h.states|
    ensures Sound(p, h.states[i])
  {
    if i == 0 {
      assert OpensAt(p, h, 0);
    } else {
      SoundThroughout(p, h, i - 1);
      assert Follows(p, h, i - 1);
      ChangeKeepsSound(p, h.states[i - 1], h.changes[i - 1], h.states[i]);
    }
  }

  // An abandoned registry never becomes current again.
  lemma {:induction false} AbandonedForever(p: Platform, h: History, i: nat, j: nat, r: Registry)
    requires IsHistory(p, h) && i <= j < |h.states| && Abandoned(h.states[i], r)
    ensures Abandoned(h.states[j], r) && h.states[j].socks != r
  {
    if i < j {
      AbandonedForever(p, h, i, j - 1, r);
      assert Follows(p, h, j - 1);
      ChangeKeepsRegistry(p, h.states[j - 1], h.changes[j - 1], h.states[j], r);
    }
  }
}
