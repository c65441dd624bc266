/**
 What selector views keep across builds: one outcome per input, no silent
 remapping of a published name, fixed tombstone deadlines, and the second pass
 of a publication as a fixpoint of the first.
 */
module SelectorRuns {
  import opened Foundations
  import opened StateTypes
  import opened Platform
  import opened Credentials

  // ---------- one outcome per input ----------

  lemma EarlierAsymmetric(t1: Time, s1: string, t2: Time, s2: string)
    requires Earlier(t1, s1, t2, s2)
    ensures !Earlier(t2, s2, t1, s1)
  {
    if t1 == t2 && StringLess(s2, s1) {
      StringLessTransitive(s1, s2, s1);
      StringLessIrreflexive(s1);
    }
  }

  lemma EqualBySize<T>(a: set<T>, b: set<T>)
    requires a <= b && |a| == |b|
    ensures a == b
  {
    assert b == a + (b - a);
  }

  lemma GreatestUnique(dead: map<string, Time>, k1: set<string>, k2: set<string>)
    requires Greatest(dead, k1) && Greatest(dead, k2)
    ensures k1 == k2
  {
    if k1 != k2 {
      if k1 <= k2 {
        EqualBySize(k1, k2);
      } else if k2 <= k1 {
        EqualBySize(k2, k1);
      } else {
        var x :| x in k1 && x !in k2;
        var y :| y in k2 && y !in k1;
        EarlierAsymmetric(dead[y], y, dead[x], x);
        assert false;
      }
    }
  }

  lemma ViewUnique(a: BuildResult, b: BuildResult, dead: map<string, Time>, want: nat)
    requires IsView(a, dead, want) && IsView(b, dead, want) && a.nodes == b.nodes
    ensures a == b
  {
    GreatestUnique(dead, Tombstones(a.selectors), Tombstones(b.selectors));
    LiveNamesWithin(a, b, dead, want);
    LiveNamesWithin(b, a, dead, want);
    forall name | name in a.selectors
      ensures name in b.selectors && a.selectors[name] == b.selectors[name]
    {
      assert name in Tombstones(a.selectors) <==> a.selectors[name].tombstoned;
    }
    forall name | name in b.selectors
      ensures name in a.selectors
    {
      assert name in Tombstones(b.selectors) <==> b.selectors[name].tombstoned;
    }
  }

  lemma LiveNamesWithin(a: BuildResult, b: BuildResult, dead: map<string, Time>, want: nat)
    requires IsView(a, dead, want) && IsView(b, dead, want) && a.nodes == b.nodes
    ensures forall name | name in a.selectors && !a.selectors[name].tombstoned ::
              name in b.selectors && b.selectors[name] == a.selectors[name]
  {
  }

  // The order in which the map was visited and the way the sort broke ties
  // leave no trace: any two builds of one input give the same view.
  lemma BuildDeterministic(p: Platform, reg: Registry, want: nat, nodes: seq<Node>, previous: Selectors, now: Time,
                           a: BuildResult, b: BuildResult)
    requires IsBuild(p, reg, want, nodes, previous, now, a) && IsBuild(p, reg, want, nodes, previous, now, b)
    ensures a == b
  {
    ViewUnique(a, b, Entombed(Selected(p, reg, nodes), previous, want, now), want);
  }

  // ---------- what one build does to one name ----------

  // The parts of IsBuild that speak of one name.
  lemma BuildFacts(p: Platform, reg: Registry, want: nat, nodes: seq<Node>, previous: Selectors, now: Time,
                   r: BuildResult)
    requires IsBuild(p, reg, want, nodes, previous, now, r)
    ensures var selected := Selected(p, reg, nodes);
            && DistinctIds(r.nodes) && DistinctSelectors(r.nodes) && DistinctSelectors(selected)
            && (forall n | n in r.nodes :: n in selected && !Dead(selected, previous, want, now, n.selector))
            && (forall n | n in selected && !Dead(selected, previous, want, now, n.selector) :: n in r.nodes)
            && |r.nodes| <= |nodes|
  {
    SelectedDistinct(p, reg, nodes);
    var selected := Selected(p, reg, nodes);
    var dead := Entombed(selected, previous, want, now);
    SurvivorsExactly(selected, dead);
    SurvivorsDistinct(selected, dead);
  }

  // What a view says about one name under one generation.
  datatype Status = Absent | Live(id: string) | Buried(until: Time)

  function StatusOf(selectors: Selectors, name: string, want: nat): Status {
    if name !in selectors || selectors[name].generation != want then Absent
    else if selectors[name].tombstoned then Buried(selectors[name].until)
    else Live(selectors[name].nodeID)
  }

  predicate Running(until: Time, now: Time) {
    until == UNSET || now < until
  }

  // The only moves a build makes: a live name stays with its node or is buried
  // for the grace period; a running burial is carried with its deadline; only a
  // free name, or one whose deadline has come, can come to life. A name that the
  // size limit cuts is free after the build.
  predicate StatusStep(before: Status, after: Status, now: Time, cut: bool) {
    match before
    case Live(a) => if cut then after == Absent else after == Live(a) || after == Buried(now + GRACE)
    case Buried(u) =>
      if !Running(u, now) then !after.Buried?
      else if cut then after == Absent
      else after == Buried(u)
    case Absent => !after.Buried?
  }

  // The names to refuse that the size limit prefers to this one: they run
  // longer, or as long and come later in the alphabet.
  ghost function Ahead(dead: map<string, Time>, name: string): set<string>
    requires name in dead
  {
    set d | d in dead && Earlier(dead[name], name, dead[d], d)
  }

  ghost predicate Crowded(dead: map<string, Time>, name: string) {
    name in dead && |Ahead(dead, name)| >= MAX_TOMBSTONES
  }

  // The same, said of the input of a build.
  ghost predicate CrowdedOut(p: Platform, reg: Registry, want: nat, nodes: seq<Node>, previous: Selectors, now: Time,
                             name: string) {
    Crowded(Entombed(Selected(p, reg, nodes), previous, want, now), name)
  }

  lemma KeptNotCrowded(dead: map<string, Time>, kept: set<string>, name: string)
    requires Greatest(dead, kept) && name in kept
    ensures !Crowded(dead, name)
  {
    forall d | d in Ahead(dead, name)
      ensures d in kept && d != name
    {
      EarlierAsymmetric(dead[name], name, dead[d], d);
    }
    SubsetCardinality(Ahead(dead, name), kept - {name});
  }

  lemma DroppedIsCrowded(dead: map<string, Time>, kept: set<string>, name: string)
    requires Greatest(dead, kept) && name in dead && name !in kept
    ensures Crowded(dead, name)
  {
    if |dead| <= MAX_TOMBSTONES {
      assert |dead| == |dead.Keys|;
      EqualBySize(kept, dead.Keys);
      assert false;
    }
    SubsetCardinality(kept, Ahead(dead, name));
  }

  // A name to refuse finds no place exactly when the limit is filled by names
  // that are preferred to it.
  lemma CutExactlyWhenCrowded(p: Platform, reg: Registry, want: nat, nodes: seq<Node>, previous: Selectors, now: Time,
                              r: BuildResult, name: string)
    requires IsBuild(p, reg, want, nodes, previous, now, r)
    requires Dead(Selected(p, reg, nodes), previous, want, now, name)
    ensures name !in r.selectors <==> CrowdedOut(p, reg, want, nodes, previous, now, name)
  {
    var dead := Entombed(Selected(p, reg, nodes), previous, want, now);
    BuildFacts(p, reg, want, nodes, previous, now, r);
    if name in Tombstones(r.selectors) {
      KeptNotCrowded(dead, Tombstones(r.selectors), name);
    } else {
      DroppedIsCrowded(dead, Tombstones(r.selectors), name);
    }
  }

  lemma DeadNameBuried(r: BuildResult, dead: map<string, Time>, want: nat, name: string)
    requires IsView(r, dead, want) && name in dead && name in r.selectors
    requires forall n | n in r.nodes :: n.selector !in dead
    ensures StatusOf(r.selectors, name, want) == Buried(dead[name])
  {
    assert r.selectors[name].tombstoned ==> name in Tombstones(r.selectors);
  }

  lemma FreeNameNotBuried(r: BuildResult, dead: map<string, Time>, want: nat, name: string)
    requires IsView(r, dead, want) && name !in dead
    ensures !StatusOf(r.selectors, name, want).Buried?
    ensures forall n | n in r.nodes && n.selector == name :: StatusOf(r.selectors, name, want) == Live(n.id)
  {
    assert name in r.selectors && r.selectors[name].tombstoned ==> name in Tombstones(r.selectors);
  }

  // Every build moves every name by one of the listed moves.
  lemma BuildMovesEveryName(p: Platform, reg: Registry, want: nat, nodes: seq<Node>, previous: Selectors, now: Time,
                            r: BuildResult, name: string)
    requires IsBuild(p, reg, want, nodes, previous, now, r)
    ensures StatusStep(StatusOf(previous, name, want), StatusOf(r.selectors, name, want), now,
                       CrowdedOut(p, reg, want, nodes, previous, now, name))
  {
    var selected := Selected(p, reg, nodes);
    var dead := Entombed(selected, previous, want, now);
    BuildFacts(p, reg, want, nodes, previous, now, r);
    if name in dead {
      CutExactlyWhenCrowded(p, reg, want, nodes, previous, now, r, name);
      if name in r.selectors {
        DeadNameBuried(r, dead, want, name);
      }
    } else {
      FreeNameNotBuried(r, dead, want, name);
      if StatusOf(previous, name, want).Live? {
        var n :| n in selected && n.selector == name && n.id == previous[name].nodeID;
        assert n in r.nodes;
      }
    }
  }

  // A node whose name is free, or whose deadline has come, is live after the build.
  lemma ExpiredNameReturns(p: Platform, reg: Registry, want: nat, nodes: seq<Node>, previous: Selectors, now: Time,
                           r: BuildResult, n: Node)
    requires IsBuild(p, reg, want, nodes, previous, now, r)
    requires n in Selected(p, reg, nodes)
    requires var s := StatusOf(previous, n.selector, want);
             s == Absent || (s.Buried? && !Running(s.until, now)) || s == Live(n.id)
    ensures n in r.nodes && StatusOf(r.selectors, n.selector, want) == Live(n.id)
  {
    BuildFacts(p, reg, want, nodes, previous, now, r);
    FreeNameNotBuried(r, Entombed(Selected(p, reg, nodes), previous, want, now), want, n.selector);
  }

  // ---------- what the size limit does ----------

  // Up to the limit nothing is cut, beyond it something always is.
  lemma CutExactlyBeyondLimit(p: Platform, reg: Registry, want: nat, nodes: seq<Node>, previous: Selectors, now: Time,
                              r: BuildResult)
    requires IsBuild(p, reg, want, nodes, previous, now, r)
    ensures (exists name :: CrowdedOut(p, reg, want, nodes, previous, now, name))
            <==> |Entombed(Selected(p, reg, nodes), previous, want, now)| > MAX_TOMBSTONES
  {
    var dead := Entombed(Selected(p, reg, nodes), previous, want, now);
    var kept := Tombstones(r.selectors);
    assert |dead| == |dead.Keys|;
    if |dead| > MAX_TOMBSTONES {
      if dead.Keys <= kept {
        SubsetCardinality(dead.Keys, kept);
        assert false;
      }
      var name :| name in dead.Keys - kept;
      DroppedIsCrowded(dead, kept, name);
      assert CrowdedOut(p, reg, want, nodes, previous, now, name);
    } else {
      EqualBySize(kept, dead.Keys);
      forall name
        ensures !CrowdedOut(p, reg, want, nodes, previous, now, name)
      {
        if name in kept {
          KeptNotCrowded(dead, kept, name);
        }
      }
    }
  }

  ghost function RunningTombstones(previous: Selectors, want: nat, now: Time): set<string> {
    set name | name in previous && previous[name].generation == want && previous[name].tombstoned
        && previous[name].IsTombstoned(now)
  }

  // So with more running tombstones than the limit some name is cut.
  lemma ManyTombstonesCut(p: Platform, reg: Registry, want: nat, nodes: seq<Node>, previous: Selectors, now: Time,
                          r: BuildResult)
    requires IsBuild(p, reg, want, nodes, previous, now, r)
    requires |RunningTombstones(previous, want, now)| > MAX_TOMBSTONES
    ensures exists name :: CrowdedOut(p, reg, want, nodes, previous, now, name)
  {
    var dead := Entombed(Selected(p, reg, nodes), previous, want, now);
    SubsetCardinality(RunningTombstones(previous, want, now), dead.Keys);
    assert |dead| == |dead.Keys|;
    CutExactlyBeyondLimit(p, reg, want, nodes, previous, now, r);
  }

  // And whoever bears a cut name in the next build is live there, at any time,
  // the deadline of the lost tombstone notwithstanding.
  lemma CutNameReturns(p: Platform, reg: Registry, want: nat, nodes: seq<Node>, previous: Selectors, now: Time,
                       r: BuildResult,
                       again: seq<Node>, later: Time, r2: BuildResult, n: Node)
    requires IsBuild(p, reg, want, nodes, previous, now, r) && IsBuild(p, reg, want, again, r.selectors, later, r2)
    requires CrowdedOut(p, reg, want, nodes, previous, now, n.selector) && n in Selected(p, reg, again)
    ensures n in r2.nodes && StatusOf(r2.selectors, n.selector, want) == Live(n.id)
  {
    CutExactlyWhenCrowded(p, reg, want, nodes, previous, now, r, n.selector);
    ExpiredNameReturns(p, reg, want, again, r.selectors, later, r2, n);
  }

  function Filler(k: nat): string {
    seq(k, i => 'x')
  }

  // One tombstone, and as many as the limit that run longer.
  function Crowd(name: string, want: nat, deadline: Time): Selectors {
    (map k | |name| < k <= |name| + MAX_TOMBSTONES ::
       Filler(k) := DeadRef(want, deadline + 1))[name := DeadRef(want, deadline)]
  }

  ghost function Fillers(from: nat, n: nat): set<string> {
    set k | from < k <= from + n :: Filler(k)
  }

  lemma {:induction false} FillersCount(from: nat, n: nat)
    ensures |Fillers(from, n)| == n && forall s | s in Fillers(from, n) :: |s| <= from + n
  {
    if n > 0 {
      FillersCount(from, n - 1);
      assert |Filler(from + n)| == from + n;
      assert Fillers(from, n) == Fillers(from, n - 1) + {Filler(from + n)};
    }
  }

  lemma CrowdShape(name: string, want: nat, deadline: Time)
    ensures var previous := Crowd(name, want, deadline);
            && previous[name] == DeadRef(want, deadline) && |previous| == MAX_TOMBSTONES + 1
            && forall s | s in Fillers(|name|, MAX_TOMBSTONES) ::
              s != name && s in previous && previous[s] == DeadRef(want, deadline + 1)
  {
    var previous := Crowd(name, want, deadline);
    FillersCount(|name|, MAX_TOMBSTONES);
    forall s | s in Fillers(|name|, MAX_TOMBSTONES)
      ensures s in previous && s != name && previous[s] == DeadRef(want, deadline + 1)
    {
      var k :| |name| < k <= |name| + MAX_TOMBSTONES && s == Filler(k);
      assert |s| == k;
    }
    assert previous.Keys == Fillers(|name|, MAX_TOMBSTONES) + {name};
    assert |previous| == |previous.Keys|;
  }

  lemma CrowdCrowds(selected: seq<Node>, name: string, want: nat, deadline: Time, now: Time)
    requires now < deadline
    ensures Crowded(Entombed(selected, Crowd(name, want, deadline), want, now), name)
  {
    CrowdShape(name, want, deadline);
    FillersCount(|name|, MAX_TOMBSTONES);
    SubsetCardinality(Fillers(|name|, MAX_TOMBSTONES),
                      Ahead(Entombed(selected, Crowd(name, want, deadline), want, now), name));
  }

  lemma CrowdBuilds(p: Platform, reg: Registry, want: nat, source: Node, deadline: Time)
    requires reg.generation == want && source.id != "" && Refine(p, reg, source).Ok?
    ensures BuildProblem(p, reg, want, [source], Crowd(Chosen(p, reg, source).selector, want, deadline)).None?
    ensures Selected(p, reg, [source]) == [Chosen(p, reg, source)] && Chosen(p, reg, source).id == source.id
  {
    CrowdShape(Chosen(p, reg, source).selector, want, deadline);
    assert NodeProblem(p, reg, [source], 0).None?;
    ProblemFree(p, reg, [source], 0);
  }

  // An input on which the limit shortens the grace: any node, its name buried
  // until some deadline, among 8192 tombstones that run longer. One build leaves
  // the node out; the next, still before the deadline, publishes it.
  lemma GraceCutShort(p: Platform, reg: Registry, want: nat, source: Node, deadline: Time, now: Time, r: BuildResult,
                      later: Time, r2: BuildResult)
    requires reg.generation == want && source.id != "" && Refine(p, reg, source).Ok? && now <= later < deadline
    requires IsBuild(p, reg, want, [source], Crowd(Chosen(p, reg, source).selector, want, deadline), now, r)
    requires IsBuild(p, reg, want, [source], r.selectors, later, r2)
    ensures var name := Chosen(p, reg, source).selector;
            && StatusOf(Crowd(name, want, deadline), name, want) == Buried(deadline)
            && r.nodes == [] && StatusOf(r.selectors, name, want) == Absent
            && StatusOf(r2.selectors, name, want) == Live(source.id)
  {
    var n := Chosen(p, reg, source);
    var previous := Crowd(n.selector, want, deadline);
    CrowdBuilds(p, reg, want, source, deadline);
    CrowdCrowds([n], n.selector, want, deadline, now);
    CutExactlyWhenCrowded(p, reg, want, [source], previous, now, r, n.selector);
    assert r.nodes == [] by {
      assert Survivors([n][..0], Entombed([n], previous, want, now)) == [];
    }
    CutNameReturns(p, reg, want, [source], previous, now, r, [source], later, r2, n);
  }

  // ---------- runs of builds fed their own output ----------

  datatype Round = Round(nodes: seq<Node>, now: Time, result: BuildResult)

  ghost function Before(start: Selectors, run: seq<Round>, i: nat): Selectors
    requires i < |run|
  {
    if i == 0 then start else run[i - 1].result.selectors
  }

  ghost predicate IsRound(p: Platform, reg: Registry, want: nat, start: Selectors, run: seq<Round>, i: nat)
    requires i < |run|
  {
    IsBuild(p, reg, want, run[i].nodes, Before(start, run, i), run[i].now, run[i].result)
  }

  ghost predicate IsRun(p: Platform, reg: Registry, want: nat, start: Selectors, run: seq<Round>) {
    && (forall i | 0 <= i < |run| :: IsRound(p, reg, want, start, run, i))
    && (forall i, j | 0 <= i < j < |run| :: run[i].now <= run[j].now)
  }

  // In this round the limit is filled by names preferred to this one.
  ghost predicate CrowdedIn(p: Platform, reg: Registry, want: nat, start: Selectors, run: seq<Round>, m: nat,
                            name: string)
    requires m < |run|
  {
    CrowdedOut(p, reg, want, run[m].nodes, Before(start, run, m), run[m].now, name)
  }

  // One name over a run: its status after each round, the clock, and the cuts.
  datatype Trail = Trail(status: seq<Status>, clock: seq<Time>, cut: seq<bool>)

  predicate IsTrail(t: Trail) {
    && |t.status| == |t.clock| == |t.cut|
    && (forall i | 0 < i < |t.status| :: StatusStep(t.status[i - 1], t.status[i], t.clock[i], t.cut[i]))
    && (forall i, j | 0 <= i < j < |t.clock| :: t.clock[i] <= t.clock[j])
  }

  lemma {:induction false} BurialCarried(t: Trail, k: nat, j: nat, until: Time)
    requires IsTrail(t) && k <= j < |t.status|
    requires t.status[k] == Buried(until) && t.clock[j] < until
    requires forall m | k < m <= j :: !t.cut[m]
    ensures t.status[j] == Buried(until)
    decreases j - k
  {
    if k < j {
      assert StatusStep(t.status[k], t.status[k + 1], t.clock[k + 1], t.cut[k + 1]);
      assert k + 1 < j ==> t.clock[k + 1] <= t.clock[j];
      BurialCarried(t, k + 1, j, until);
    }
  }

  lemma {:induction false} TrailKeepsNode(t: Trail, i: nat, j: nat, a: string, b: string)
    requires IsTrail(t) && i < j < |t.status|
    requires t.status[i] == Live(a) && t.status[j] == Live(b) && a != b
    requires forall m | i < m < j :: !t.cut[m]
    ensures t.clock[i + 1] + GRACE <= t.clock[j]
    decreases j - i
  {
    assert StatusStep(t.status[i], t.status[i + 1], t.clock[i + 1], t.cut[i + 1]);
    if i + 1 < j {
      if t.status[i + 1] == Live(a) {
        TrailKeepsNode(t, i + 1, j, a, b);
        assert t.clock[i + 1] <= t.clock[i + 2];
      } else if t.clock[j] < t.clock[i + 1] + GRACE {
        BurialStays(t, i + 1, j, t.clock[i + 1] + GRACE);
        assert false;
      }
    }
  }

  lemma BurialStays(t: Trail, k: nat, j: nat, until: Time)
    requires IsTrail(t) && k < j < |t.status|
    requires t.status[k] == Buried(until) && t.clock[j] < until
    requires forall m | k < m < j :: !t.cut[m]
    ensures !t.status[j].Live?
  {
    assert t.clock[j - 1] <= t.clock[j];
    BurialCarried(t, k, j - 1, until);
    assert StatusStep(t.status[j - 1], t.status[j], t.clock[j], t.cut[j]);
  }

  ghost function TrailOf(p: Platform, reg: Registry, want: nat, start: Selectors, run: seq<Round>,
                         name: string): Trail {
    Trail(seq(|run|, i requires 0 <= i < |run| => StatusOf(run[i].result.selectors, name, want)),
          seq(|run|, i requires 0 <= i < |run| => run[i].now),
          seq(|run|, i requires 0 <= i < |run| => CrowdedIn(p, reg, want, start, run, i, name)))
  }

  lemma RunsAreTrails(p: Platform, reg: Registry, want: nat, start: Selectors, run: seq<Round>, name: string)
    requires IsRun(p, reg, want, start, run)
    ensures IsTrail(TrailOf(p, reg, want, start, run, name))
  {
    var t := TrailOf(p, reg, want, start, run, name);
    forall i | 0 < i < |run|
      ensures StatusStep(t.status[i - 1], t.status[i], t.clock[i], t.cut[i])
    {
      assert IsRound(p, reg, want, start, run, i);
      RoundMovesEveryName(p, reg, want, start, run, i, name);
    }
  }

  lemma RoundMovesEveryName(p: Platform, reg: Registry, want: nat, start: Selectors, run: seq<Round>, i: nat,
                            name: string)
    requires 0 < i < |run| && IsRound(p, reg, want, start, run, i)
    ensures StatusStep(StatusOf(run[i - 1].result.selectors, name, want), StatusOf(run[i].result.selectors, name, want),
                       run[i].now, CrowdedIn(p, reg, want, start, run, i, name))
  {
    BuildMovesEveryName(p, reg, want, run[i].nodes, Before(start, run, i), run[i].now, run[i].result, name);
  }

  // Over any run, a published name that changes its node took at least the
  // grace period to do so, unless in some round on the way at least 8192 other
  // names to refuse were preferred to it.
  lemma NoRemapWithinGrace(p: Platform, reg: Registry, want: nat, start: Selectors, run: seq<Round>, i: nat, j: nat,
                           name: string, a: string, b: string)
    requires IsRun(p, reg, want, start, run) && i < j < |run|
    requires StatusOf(run[i].result.selectors, name, want) == Live(a)
    requires StatusOf(run[j].result.selectors, name, want) == Live(b)
    requires a != b
    ensures run[i + 1].now + GRACE <= run[j].now || exists m | i < m < j :: CrowdedIn(p, reg, want, start, run, m, name)
  {
    var t := TrailOf(p, reg, want, start, run, name);
    RunsAreTrails(p, reg, want, start, run, name);
    if forall m | i < m < j :: !CrowdedIn(p, reg, want, start, run, m, name) {
      assert forall m | i < m < j :: !t.cut[m];
      TrailKeepsNode(t, i, j, a, b);
    }
  }

  // ---------- the second pass of a publication ----------

  ghost function Unexpired(selectors: Selectors, now: Time): Selectors {
    map name | name in selectors && (!selectors[name].tombstoned || selectors[name].IsTombstoned(now)) ::
      selectors[name]
  }

  // Refined nodes refine to themselves.
  lemma SelectedStay(p: Platform, reg: Registry, nodes: seq<Node>)
    requires LawfulHosts(p) && FirstProblem(p, reg, nodes, 0).None?
    ensures forall n | n in Selected(p, reg, nodes) :: Settled(p, reg, n)
  {
    SelectedDistinct(p, reg, nodes);
    forall n | n in Selected(p, reg, nodes)
      ensures Settled(p, reg, n)
    {
      var k :| 0 <= k < |nodes| && Selected(p, reg, nodes)[k] == n;
      RefineIdempotent(p, reg, nodes[k]);
    }
  }

  ghost predicate Settled(p: Platform, reg: Registry, n: Node) {
    n.id != "" && Refine(p, reg, n) == Ok(n) && n.Valid()
  }

  lemma SettledSelects(p: Platform, reg: Registry, nodes: seq<Node>)
    requires forall n | n in nodes :: Settled(p, reg, n)
    requires DistinctIds(nodes) && DistinctSelectors(nodes)
    ensures Selected(p, reg, nodes) == nodes
    ensures FirstProblem(p, reg, nodes, 0).None?
  {
    forall k | 0 <= k < |nodes|
      ensures Chosen(p, reg, nodes[k]) == nodes[k] && NodeProblem(p, reg, nodes, k).None?
    {
      assert forall j | 0 <= j <= k :: Settled(p, reg, nodes[j]);
      assert !EarlierSelector(p, reg, nodes, k, nodes[k].selector);
    }
    ProblemFree(p, reg, nodes, 0);
  }

  // The nodes of a view are settled under any registry with the same keys.
  lemma ViewSettled(p: Platform, reg: Registry, reg2: Registry, want: nat, nodes: seq<Node>, previous: Selectors,
                    now: Time, r: BuildResult)
    requires LawfulHosts(p) && IsBuild(p, reg, want, nodes, previous, now, r)
    requires reg2.selectorKey == reg.selectorKey && reg2.proxyKey == reg.proxyKey
    ensures forall n | n in r.nodes :: Settled(p, reg2, n)
  {
    SelectedStay(p, reg, nodes);
    BuildFacts(p, reg, want, nodes, previous, now, r);
    forall n | n in r.nodes
      ensures Settled(p, reg2, n)
    {
      assert Settled(p, reg, n);
      RefineByKeys(p, reg, reg2, n);
    }
  }

  // Only the keys of a registry matter to refinement.
  lemma RefineByKeys(p: Platform, reg: Registry, reg2: Registry, n: Node)
    requires reg2.selectorKey == reg.selectorKey && reg2.proxyKey == reg.proxyKey
    ensures Refine(p, reg2, n) == Refine(p, reg, n)
  {
  }

  lemma LiveCount(nodes: seq<Node>, selectors: Selectors)
    requires forall name | name in selectors && !selectors[name].tombstoned ::
               exists n :: n in nodes && n.selector == name
    ensures |set name | name in selectors && !selectors[name].tombstoned| <= |nodes|
  {
    var live := set name | name in selectors && !selectors[name].tombstoned;
    var bearers := SelectorSet(nodes);
    forall name | name in live
      ensures name in bearers
    {
      var n :| n in nodes && n.selector == name;
    }
    SubsetCardinality(live, bearers);
    SelectorSetSize(nodes);
  }

  ghost function SelectorSet(nodes: seq<Node>): set<string> {
    set n | n in nodes :: n.selector
  }

  lemma {:induction false} SelectorSetSize(nodes: seq<Node>)
    ensures |SelectorSet(nodes)| <= |nodes|
  {
    if nodes != [] {
      SelectorSetSize(nodes[1..]);
      assert nodes == [nodes[0]] + nodes[1..];
      assert SelectorSet(nodes) == {nodes[0].selector} + SelectorSet(nodes[1..]);
    }
  }

  lemma ViewSize(dead: map<string, Time>, r: BuildResult, want: nat)
    requires IsView(r, dead, want)
    ensures |r.selectors| <= |r.nodes| + MAX_TOMBSTONES
  {
    var live := set name | name in r.selectors && !r.selectors[name].tombstoned;
    LiveCount(r.nodes, r.selectors);
    assert r.selectors.Keys == live + Tombstones(r.selectors);
    assert |r.selectors| == |r.selectors.Keys|;
  }

  // Rebuilding a view from itself under the same keys always succeeds ...
  lemma SecondPassSucceeds(p: Platform, reg: Registry, reg2: Registry, nodes: seq<Node>, previous: Selectors, t1: Time,
                           r: BuildResult, want: nat)
    requires LawfulHosts(p)
    requires IsBuild(p, reg, want, nodes, previous, t1, r)
    requires reg2.selectorKey == reg.selectorKey && reg2.proxyKey == reg.proxyKey && reg2.generation == reg.generation
    ensures BuildProblem(p, reg2, want, r.nodes, r.selectors).None?
    ensures Selected(p, reg2, r.nodes) == r.nodes
  {
    BuildFacts(p, reg, want, nodes, previous, t1, r);
    ViewSettled(p, reg, reg2, want, nodes, previous, t1, r);
    SettledSelects(p, reg2, r.nodes);
    ViewSize(Entombed(Selected(p, reg, nodes), previous, want, t1), r, want);
  }

  // ... and gives the same nodes and the same references, minus the tombstones
  // that ran out between the two clock readings.
  lemma SecondPassIsFixpoint(p: Platform, reg: Registry, reg2: Registry, nodes: seq<Node>, previous: Selectors,
                             t1: Time, r: BuildResult, want: nat, t2: Time, r2: BuildResult)
    requires LawfulHosts(p)
    requires IsBuild(p, reg, want, nodes, previous, t1, r)
    requires reg2.selectorKey == reg.selectorKey && reg2.proxyKey == reg.proxyKey && reg2.generation == reg.generation
    requires IsBuild(p, reg2, want, r.nodes, r.selectors, t2, r2)
    ensures r2 == BuildResult(r.nodes, Unexpired(r.selectors, t2))
  {
    SecondPassSucceeds(p, reg, reg2, nodes, previous, t1, r, want);
    SecondPassResult(r, Entombed(Selected(p, reg, nodes), previous, want, t1), want, t2, r2);
  }

  lemma SecondPassResult(r: BuildResult, dead: map<string, Time>, want: nat, now: Time, r2: BuildResult)
    requires IsView(r, dead, want)
    requires r2.nodes == Survivors(r.nodes, Entombed(r.nodes, r.selectors, want, now))
    requires IsView(r2, Entombed(r.nodes, r.selectors, want, now), want)
    ensures r2 == BuildResult(r.nodes, Unexpired(r.selectors, now))
  {
    SecondPassView(r, dead, want, now);
    AllSurvive(r.nodes, Entombed(r.nodes, r.selectors, want, now));
    ViewUnique(r2, BuildResult(r.nodes, Unexpired(r.selectors, now)), Entombed(r.nodes, r.selectors, want, now), want);
  }

  lemma SecondPassDead(r: BuildResult, dead: map<string, Time>, want: nat, now: Time, name: string)
    requires IsView(r, dead, want) && name in r.selectors
    ensures Dead(r.nodes, r.selectors, want, now, name) <==>
              r.selectors[name].tombstoned && r.selectors[name].IsTombstoned(now)
    ensures r.selectors[name].tombstoned ==> r.selectors[name] == DeadRef(want, r.selectors[name].until)
  {
    if r.selectors[name].tombstoned {
      assert name in Tombstones(r.selectors);
    } else {
      var n :| n in r.nodes && n.selector == name;
      assert r.selectors[n.selector] == LiveRef(n, want);
      assert Borne(r.nodes, name, n.id);
    }
  }

  // A view rebuilt from itself: exactly its running tombstones are dead.
  lemma SecondPassView(r: BuildResult, dead: map<string, Time>, want: nat, now: Time)
    requires IsView(r, dead, want)
    ensures IsView(BuildResult(r.nodes, Unexpired(r.selectors, now)), Entombed(r.nodes, r.selectors, want, now), want)
    ensures forall n | n in r.nodes :: n.selector !in Entombed(r.nodes, r.selectors, want, now)
  {
    var again := Unexpired(r.selectors, now);
    var dead2 := Entombed(r.nodes, r.selectors, want, now);
    forall name | name in r.selectors
      ensures name in dead2 <==> r.selectors[name].tombstoned && r.selectors[name].IsTombstoned(now)
      ensures name in dead2 ==> r.selectors[name] == DeadRef(want, dead2[name])
    {
      SecondPassDead(r, dead, want, now, name);
    }
    assert Tombstones(again) == dead2.Keys;
    SubsetCardinality(dead2.Keys, Tombstones(r.selectors));
    assert |dead2| == |dead2.Keys|;
    assert Greatest(dead2, Tombstones(again));
  }

  lemma {:induction false} AllSurvive(nodes: seq<Node>, dead: map<string, Time>)
    requires forall n | n in nodes :: n.selector !in dead
    ensures Survivors(nodes, dead) == nodes
  {
    if nodes != [] {
      AllSurvive(nodes[..|nodes| - 1], dead);
      assert nodes == nodes[..|nodes| - 1] + [nodes[|nodes| - 1]];
    }
  }
}
