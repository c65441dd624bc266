/**
 A platform that has all the laws, and on it a short run in which the clock is
 set back during an address move: the final check of the move fails, the cache
 stays behind, and moving back leaves the fetch flag claiming a record that
 nobody makes (internal/subscription/service.go).
 */
module Setback {
  import opened Foundations
  import opened StateTypes
  import opened Platform
  import opened Credentials
  import opened Manager
  import opened Rendering
  import opened Durable
  import opened Bodies
  import opened Subscriptions
  import opened FetchProof

  // ---------- a platform ----------

  // Four printable digits to the base 64 for each character.
  function Armour(s: string): string {
    if s == "" then "" else Digits(s[0] as int) + Armour(s[1..])
  }

  function Digits(n: nat): string
    requires n < 0x110000
  {
    [Digit(n / 262144), Digit(n / 4096 % 64), Digit(n / 64 % 64), Digit(n % 64)]
  }

  function Digit(d: nat): char
    requires d < 64
  {
    (48 + d) as char
  }

  function Character(digits: string): char
    requires |digits| == 4
  {
    var n := (digits[0] as int - 48) * 262144 + (digits[1] as int - 48) * 4096 + (digits[2] as int - 48) * 64
             + (digits[3] as int - 48);
    if 0 <= n < 0xD800 || 0xE000 <= n < 0x110000 then n as char else 'a'
  }

  // The first armoured text of a line, and what follows its full stop.
  function Unarmour(t: string): (string, string) {
    if |t| < 4 || t[0] == '.' then ("", if t == "" then "" else t[1..])
    else
      var (s, rest) := Unarmour(t[4..]);
      ([Character(t[..4])] + s, rest)
  }

  lemma CharacterBack(c: char)
    ensures Character(Digits(c as int)) == c
  {
    var n := c as int;
    assert n == n / 262144 * 262144 + n / 4096 % 64 * 4096 + n / 64 % 64 * 64 + n % 64;
  }

  lemma {:induction false} UnarmourBack(s: string, rest: string)
    ensures Unarmour(Armour(s) + "." + rest) == (s, rest)
  {
    var t := Armour(s) + "." + rest;
    if s == "" {
      assert t == "." + rest;
    } else {
      assert t[4..] == Armour(s[1..]) + "." + rest;
      assert t[..4] == Digits(s[0] as int);
      CharacterBack(s[0]);
      UnarmourBack(s[1..], rest);
      assert s == [s[0]] + s[1..];
    }
  }

  lemma {:induction false} ArmourPrintable(s: string)
    ensures |Armour(s)| == 4 * |s|
    ensures forall c | c in Armour(s) :: 32 as char < c < 127 as char
  {
    if s != "" {
      ArmourPrintable(s[1..]);
    }
  }

  function PrintSample(l: LinkText): string {
    Armour(l.selector) + "." + (Armour(l.password) + "." + (Armour(l.address) + "." + (Armour(l.name) + ".")))
  }

  function ParseSample(line: string): Option<ParsedLink> {
    var (selector, afterSelector) := Unarmour(line);
    var (password, afterPassword) := Unarmour(afterSelector);
    var (address, afterAddress) := Unarmour(afterPassword);
    var (name, _) := Unarmour(afterAddress);
    Some(ParsedLink("socks5", "", address, "", "", selector, Some(password), true, name, line))
  }

  function Repeated<T>(x: T, n: nat): seq<T> {
    seq(n, i => x)
  }

  const KEY: Key := Repeated(0, KEY_SIZE)

  // Tells texts apart by their lengths to the base 8, as far as two bodies need.
  function HashSample(s: string): Key {
    [if |s| % 8 == 5 then 0 else 1] + Repeated(0, KEY_SIZE - 1)
  }

  const SAMPLE: Platform := Platform(
    (host: string) => if host == "" || NUL in host then None else Some(host),
    (k: Key, s: string) => Repeated('a', 16),
    (k: Key, s: string) => Repeated('a', 24),
    (k: Key, s: string) => KEY,
    (s: string) => s,
    HashSample,
    (s: string) => s,
    (s: string) => Some(s),
    (s: string) => true,
    (address: string) => if address == "" then None else Some(address),
    (concrete: string, wildcard: string) => false,
    PrintSample,
    ParseSample)

  lemma SamplePrints(l: LinkText)
    ensures PrintSample(l) != "" && (forall c | c in PrintSample(l) :: 32 as char < c < 127 as char)
    ensures ParseSample(PrintSample(l)) ==
            Some(ParsedLink("socks5", "", l.address, "", "", l.selector, Some(l.password), true, l.name,
                            PrintSample(l)))
  {
    PrintedForm(l);
    UnarmourBack(l.selector, Armour(l.password) + "." + (Armour(l.address) + "." + (Armour(l.name) + ".")));
    UnarmourBack(l.password, Armour(l.address) + "." + (Armour(l.name) + "."));
    UnarmourBack(l.address, Armour(l.name) + ".");
    UnarmourBack(l.name, "");
    assert Armour(l.name) + "." + "" == Armour(l.name) + ".";
  }

  lemma PrintedForm(l: LinkText)
    ensures forall c | c in PrintSample(l) :: 32 as char < c < 127 as char
    ensures |PrintSample(l)| == 4 * (|l.selector| + |l.password| + |l.address| + |l.name|) + 4
  {
    ArmourPrintable(l.selector);
    ArmourPrintable(l.password);
    ArmourPrintable(l.address);
    ArmourPrintable(l.name);
  }

  // The laws contradict neither each other nor anything else.
  lemma SampleLawful()
    ensures Lawful(SAMPLE)
  {
    forall l: LinkText
      ensures SAMPLE.printLink(l) == PrintSample(l) && SAMPLE.printLink(l) != ""
      ensures forall c | c in SAMPLE.printLink(l) :: 32 as char < c < 127 as char
      ensures SAMPLE.parseLink(SAMPLE.printLink(l)) ==
              Some(ParsedLink("socks5", "", l.address, "", "", l.selector, Some(l.password), true, l.name,
                              SAMPLE.printLink(l)))
    {
      SamplePrints(l);
    }
  }

  // ---------- an aggregate ----------

  const HERE: string := "a"
  const THERE: string := "bb"

  const KEYS: SubscriptionGeneration := SubscriptionGeneration(1, KEY, KEY, KEY, 100)

  // A node for a profile that the snapshot has no session of.
  const NODE: Node := Node("n", "n_" + Repeated('a', 16), "WIFIIN", Windows, "h", 1, "x", "y", true, false, Unknown, 0,
                           UNSET)

  const STORED: seq<PersistedNode> := [Persist(NODE)]

  const EXTENSION: string := Barred("k", IOS_IDENTITY.0, "x", "u", IOS_IDENTITY.1, IOS_IDENTITY.2)

  const SESSIONS: ClientSessions :=
    ClientSessions(SessionSecrets("u", "t", "k", "w", TUNNEL_METHOD, EXTENSION), NO_SESSION)

  // It runs out at 300.
  const SNAPSHOT: RuntimeSnapshot := RuntimeSnapshot(1, 100, 300, NO_ACCOUNT, SESSIONS, [NODE],
                                                     map[NODE.selector := NodeRef("n", 1, false, UNSET)])

  const LINK: Link := Link(NODE.selector, "p_" + Repeated('a', 24), "x", "y", true)

  function Body(address: string): string {
    PrintSample(LinkText(LINK.selector, LINK.password, address, LINK.name)) + "\n"
  }

  function Record(address: string, fetchedAt: Time): LastGood {
    LastGood(1, 100, STORED, Body(address), if fetchedAt == UNSET then 0 else 1, fetchedAt,
             if fetchedAt == UNSET then [] else HashSample(Body(address)))
  }

  function Aggregate(address: string, fetchedAt: Time): PersistentState {
    PersistentState(Some(KEY), KEYS, Record(address, fetchedAt), Some(SNAPSHOT))
  }

  lemma NodeDerives()
    ensures NODE.Valid() && IsWifiin(NODE.provider) && NODE.TunnelEligible()
    ensures DeriveNode(SAMPLE, KEYS, NODE.id, NODE.provider, NODE.host, NODE.port) ==
            Ok(Pair(LINK.selector, LINK.password))
    ensures Persist(NODE).Valid() && Derivable(SAMPLE, KEYS, Persist(NODE)) && Derived(SAMPLE, KEYS, Persist(NODE))
    ensures forall legacy :: PersistedLinks(SAMPLE, KEYS, STORED, legacy) == [LINK]
    ensures LINK.Usable()
  {
    assert Upper(NODE.provider) == NODE.provider;
    assert PrintableProvider(NODE.provider);
    assert NUL !in LINK.selector && NUL !in LINK.password;
  }

  lemma OneLink(l: Link, address: string)
    requires l.eligible
    ensures Eligible([l]) == [l] && SortLinks([l]) == [l]
    ensures Text(SAMPLE, [l], address) == Line(SAMPLE, l, address) + "\n"
  {
    assert [l][..0] == [] && [l][1..] == [];
    assert Eligible([l]) == Eligible([]) + [l];
    assert SortLinks([l]) == InsertLink(SortLinks([]), l);
    assert Text(SAMPLE, [l], address) == Text(SAMPLE, [], address) + Line(SAMPLE, l, address) + "\n";
  }

  lemma BodyRenders(address: string)
    requires 0 < |address| < 100
    ensures Rendered(SAMPLE, [LINK], address) == Ok((Body(address), 1))
  {
    NodeDerives();
    OneLink(LINK, address);
    PrintedForm(LinkText(LINK.selector, LINK.password, address, LINK.name));
  }

  lemma BodyLength(address: string)
    ensures |Body(address)| == 4 * |address| + 185
  {
    assert |LINK.selector| + |LINK.password| == 44 && |LINK.name| == 1;
    PrintedForm(LinkText(LINK.selector, LINK.password, address, LINK.name));
  }

  predicate Short(address: string) {
    address == HERE || address == THERE
  }

  // The body is accepted, and shows the address it was printed for.
  lemma BodyAccepted(address: string)
    requires Short(address)
    ensures ValidBody(SAMPLE, Body(address), STORED) && BodyAddress(SAMPLE, Body(address)) == Some(address)
    ensures RendersAs(SAMPLE, PersistedLinks(SAMPLE, KEYS, STORED, false), address, Body(address))
  {
    SampleLawful();
    NodeDerives();
    BodyRenders(address);
    RenderedBodyAccepted(SAMPLE, KEYS, STORED, address);
  }

  lemma BodyShows(address: string)
    requires Short(address)
    ensures CommonAddress(SAMPLE, Body(address)) == Some(address)
  {
    SampleLawful();
    NodeDerives();
    var line := Line(SAMPLE, LINK, address);
    PrintedLineValid(SAMPLE, LINK, address);
    OneLineShown(SAMPLE, line, address, Body(address));
  }

  lemma OneLineShown(p: Platform, line: string, address: string, body: string)
    requires p.decode(body) == Some(line + "\n") && line != "" && '\n' !in line
    requires p.parseLink(line).Some? && p.parseLink(line).value.host == address && LineFor(p, line, address)
    requires p.hostPort(address).Some?
    ensures CommonAddress(p, body) == Some(address)
  {
    var text := line + "\n";
    assert text[..|text| - 1] == line;
    SplitAlone(line, '\n');
  }

  function Barred(b: string, c: string, d: string, e: string, f: string, g: string): string {
    "" + ['|'] + b + ['|'] + c + ['|'] + d + ['|'] + e + ['|'] + f + ['|'] + g
  }

  lemma BarredSplits(b: string, c: string, d: string, e: string, f: string, g: string)
    requires '|' !in b && '|' !in c && '|' !in d && '|' !in e && '|' !in f && '|' !in g
    ensures Split(Barred(b, c, d, e, f, g), '|') == ["", b, c, d, e, f, g]
  {
    SplitAlone("", '|');
    var s1 := "" + ['|'] + b;
    SplitNext("", b, '|');
    assert Split(s1, '|') == ["", b];
    var s2 := s1 + ['|'] + c;
    SplitNext(s1, c, '|');
    assert Split(s2, '|') == ["", b, c];
    var s3 := s2 + ['|'] + d;
    SplitNext(s2, d, '|');
    assert Split(s3, '|') == ["", b, c, d];
    var s4 := s3 + ['|'] + e;
    SplitNext(s3, e, '|');
    assert Split(s4, '|') == ["", b, c, d, e];
    var s5 := s4 + ['|'] + f;
    SplitNext(s4, f, '|');
    SplitNext(s5, g, '|');
  }

  lemma ExtensionFits()
    ensures ExtensionFor(IOS_IDENTITY, EXTENSION) && ValidSessionField(EXTENSION, MAX_EXTENSION)
    ensures Split(EXTENSION, '|')[1] == "k" && Split(EXTENSION, '|')[4] == "u"
  {
    BarredSplits("k", IOS_IDENTITY.0, "x", "u", IOS_IDENTITY.1, IOS_IDENTITY.2);
  }

  lemma SessionsPersist()
    ensures PersistableSessions(SESSIONS) && SESSIONS.Valid() && SESSIONS.UserID() == "u"
  {
    ExtensionFits();
  }

  lemma OneNode(s: RuntimeSnapshot, n: Node, generation: nat)
    requires s.generation != 0 && UNSET != s.createdAt < s.expiresAt <= s.createdAt + DAY
    requires s.nodes == [n] && n.Valid() && n.selector != "" && generation != 0
    requires s.selectors == map[n.selector := NodeRef(n.id, generation, false, UNSET)]
    ensures ValidRuntimeSnapshot(s, s.expiresAt)
  {
    assert n in s.nodes;
    forall name | name in s.selectors
      ensures ValidReference(name, s.selectors[name], s.nodes)
    {
      assert name == n.selector;
    }
  }

  lemma SnapshotSound()
    ensures ValidRuntimeSnapshot(SNAPSHOT, 300) && Sessionless(SNAPSHOT)
  {
    NodeDerives();
    OneNode(SNAPSHOT, NODE, 1);
    assert NODE in SNAPSHOT.nodes && SESSIONS.For(NODE.EffectiveProfile()).None?;
  }

  lemma AccountBinds()
    ensures MatchesBinding(SAMPLE, KEYS.binding, KEY, "u")
  {
    assert BindingFor(SAMPLE, KEY, "u") == Some(KEY);
  }

  // Once the session has run out, nobody asks for the missing one.
  lemma SnapshotValid(now: Time)
    ensures ValidRuntimeSnapshot(SNAPSHOT, now) <==> now >= 300
  {
    SessionsPersist();
    SnapshotSound();
    ValidBackwards(SNAPSHOT, 300, now);
  }

  lemma AggregateServed(address: string, fetchedAt: Time, now: Time)
    requires Short(address) && (fetchedAt == UNSET || fetchedAt >= 100) && now >= 300
    ensures ServedValid(SAMPLE, Aggregate(address, fetchedAt), now, address)
  {
    BodyAccepted(address);
    NodeDerives();
    SnapshotValid(now);
    SessionsPersist();
    AccountBinds();
    var s := Aggregate(address, fetchedAt);
    assert s.lastGood.nodes == STORED && s.subscription == KEYS && s.active == Some(SNAPSHOT);
    Accepted(SAMPLE, s, NODE, address, now);
  }

  // What it takes for an aggregate with one node to be accepted.
  lemma Accepted(p: Platform, s: PersistentState, n: Node, address: string, now: Time)
    requires s.verifier.Some? && |s.verifier.value| == KEY_SIZE && s.subscription.Valid() && s.active.Some?
    requires |s.subscription.binding| == KEY_SIZE && s.lastGood.generation == s.subscription.number
    requires s.lastGood.createdAt != UNSET && s.lastGood.nodes == [Persist(n)] && Persist(n).Valid()
    requires if s.lastGood.fetchedAt == UNSET then |s.lastGood.fetchedHash| == s.lastGood.fetchedGeneration == 0
             else
               && |s.lastGood.fetchedHash| == KEY_SIZE && s.lastGood.createdAt <= s.lastGood.fetchedAt
               && 0 < s.lastGood.fetchedGeneration <= s.lastGood.generation
    requires ValidBody(p, s.lastGood.body, s.lastGood.nodes)
             && BodyAddress(p, s.lastGood.body) == Some(address) && Derived(p, s.subscription, Persist(n))
             && RendersAs(p, PersistedLinks(p, s.subscription, s.lastGood.nodes, false), address, s.lastGood.body)
    requires var a := s.active.value;
             && ValidRuntimeSnapshot(a, now) && PersistableSessions(a.sessions)
             && MatchesBinding(p, s.subscription.binding, s.verifier.value, a.sessions.UserID())
             && a.nodes == [n] && a.selectors == map[n.selector := NodeRef(n.id, s.subscription.number, false, UNSET)]
    ensures ServedValid(p, s, now, address)
  {
    var a := s.active.value;
    assert ValidLastGood(p, s.lastGood, s.subscription.number);
    assert ValidActive(p, s, a, now);
    assert BodyMatchesNodes(p, s);
    assert n in a.nodes && ActiveNodeMatches(p, s, a.selectors, n);
    assert ActiveMatches(p, s, a);
  }

  lemma BodiesDiffer()
    ensures Body(HERE) != Body(THERE) && HashSample(Body(HERE)) != HashSample(Body(THERE))
  {
    BodyLength(HERE);
    BodyLength(THERE);
    SampleTells(Body(HERE), Body(THERE));
  }

  lemma SampleTells(a: string, b: string)
    requires |a| % 8 != 5 <==> |b| % 8 == 5
    ensures a != b && HashSample(a) != HashSample(b)
  {
    assert HashSample(a)[0] != HashSample(b)[0];
  }

  lemma RendersAtBoth(from: string, to: string)
    requires Short(from) && Short(to) && from != to
    ensures forall n | n in STORED :: Derivable(SAMPLE, KEYS, n)
    ensures var links := PersistedLinks(SAMPLE, KEYS, STORED, false);
            RendersAs(SAMPLE, links, from, Body(from)) && RendersAs(SAMPLE, links, to, Body(to))
    ensures Body(from) != Body(to)
  {
    BodyAccepted(from);
    BodyAccepted(to);
    NodeDerives();
    BodiesDiffer();
  }

  lemma AggregateMoves(from: string, to: string, fetchedAt: Time)
    requires Short(from) && Short(to) && from != to
    ensures Reconciled(SAMPLE, Aggregate(from, fetchedAt), to) == Some(Aggregate(to, UNSET))
  {
    RendersAtBoth(from, to);
    BodyShows(from);
    var s := Aggregate(from, fetchedAt);
    assert s.lastGood.nodes == STORED && s.subscription == KEYS && s.lastGood.body == Body(from);
    Rewritten(SAMPLE, s, from, to, Body(to));
  }

  lemma Rewritten(p: Platform, s: PersistentState, from: string, to: string, body: string)
    requires s.lastGood.body != "" && |s.subscription.binding| == KEY_SIZE
             && s.lastGood.generation == s.subscription.number
    requires forall n | n in s.lastGood.nodes :: Derivable(p, s.subscription, n)
    requires var links := PersistedLinks(p, s.subscription, s.lastGood.nodes, false);
             RendersAs(p, links, from, s.lastGood.body) && RendersAs(p, links, to, body)
    requires CommonAddress(p, s.lastGood.body) == Some(from) && body != s.lastGood.body
    ensures Reconciled(p, s, to) == Some(s.(lastGood := s.lastGood.(body := body, fetchedAt := UNSET,
                                                                    fetchedGeneration := 0, fetchedHash := [])))
  {
  }

  // ---------- the run ----------

  function Served(fetchedAt: Time, fetching: bool): Cache {
    Projection(SAMPLE, Aggregate(HERE, fetchedAt)).(fetching := fetching)
  }

  const HASH: Key := HashSample(Body(HERE))

  const OPENING: World := World(Aggregate(HERE, UNSET), Served(UNSET, false), multiset{}, None, HERE, 400)
  const CLAIMED: World := OPENING.(cache := Served(UNSET, true), inFlight := multiset{(1, HASH)})
  const RECORDED: World := World(Aggregate(HERE, 410), Served(410, true), multiset{}, None, HERE, 420)
  const STALLED: World := RECORDED.(durable := Aggregate(THERE, UNSET), address := THERE)
  const RETURNED: World := World(Aggregate(HERE, UNSET), Served(UNSET, true), multiset{}, None, HERE, 440)

  // A fetch is claimed and recorded. Then the listener moves, with the clock set
  // back before the expiry between the write and the final check; and it moves back.
  const OPENED: Ledger := Ledger([OPENING], [])
  const TO_CLAIM: Ledger := OPENED.Then(Claim(1, HASH), CLAIMED)
  const TO_RECORD: Ledger := TO_CLAIM.Then(Step.Record(1, HASH, 410, 420, true), RECORDED)
  const TO_STALL: Ledger := TO_RECORD.Then(Stall(THERE, 430, 250, true), STALLED)
  const TO_RETURN: Ledger := TO_STALL.Then(Move(HERE, 440), RETURNED)

  lemma ServedFields(fetchedAt: Time, fetching: bool)
    ensures var c := Served(fetchedAt, fetching);
            && c.binding == KEY && c.generation == 1 && c.body == Body(HERE) != "" && c.bodyHash == HASH
            && c.fetching == fetching && c.fetchedAt == fetchedAt && (fetchedAt != UNSET ==> c.Proven())
    ensures |HASH| == KEY_SIZE
  {
  }

  lemma RunOpens()
    ensures IsLedger(SAMPLE, OPENED)
  {
    AggregateServed(HERE, UNSET, 400);
    assert Opening(SAMPLE, OPENING);
    assert OpensAt(SAMPLE, OPENED.run, 0);
  }

  lemma FetchClaimed()
    ensures IsLedger(SAMPLE, TO_CLAIM)
  {
    RunOpens();
    ServedFields(UNSET, false);
    assert MayClaim(OPENING.cache, 1, HASH);
    LedgerThen(SAMPLE, OPENED, Claim(1, HASH), CLAIMED);
  }

  lemma RecordSucceeds()
    ensures AfterFetch(SAMPLE, CLAIMED.durable, CLAIMED.cache, 1, HASH, 410, Recorded)
            == (Aggregate(HERE, 410), Served(410, true))
    ensures FetchOutcomeOf(SAMPLE, CLAIMED.durable, CLAIMED.cache, 1, HASH, 410, 420, HERE, true) == Recorded
  {
    ServedFields(UNSET, true);
    AggregateServed(HERE, 410, 420);
    var s := Aggregate(HERE, UNSET);
    assert WithProof(s, 1, HASH, 410) == Aggregate(HERE, 410);
    assert Recordable(SAMPLE, s, 1, HASH, 410, 420, HERE);
  }

  lemma RecordSteps()
    ensures Next(SAMPLE, CLAIMED, Step.Record(1, HASH, 410, 420, true), RECORDED)
  {
    RecordSucceeds();
    assert CLAIMED.inFlight - multiset{(1, HASH)} == multiset{};
  }

  lemma FetchRecorded()
    ensures IsLedger(SAMPLE, TO_RECORD)
  {
    FetchClaimed();
    RecordSteps();
    LedgerThen(SAMPLE, TO_CLAIM, Step.Record(1, HASH, 410, 420, true), RECORDED);
  }

  // The aggregate passed the full check before, at 420, and the write of the
  // moved record passes at 430; the final check reads 250.
  lemma MoveStalls()
    ensures ServedValid(SAMPLE, Aggregate(HERE, 410), 420, HERE)
    ensures FailsLast(SAMPLE, Aggregate(HERE, 410), THERE, 430, 250, true)
    ensures Reconciled(SAMPLE, Aggregate(HERE, 410), THERE) == Some(Aggregate(THERE, UNSET))
  {
    AggregateServed(HERE, 410, 420);
    AggregateMoves(HERE, THERE, 410);
    AggregateServed(THERE, UNSET, 430);
    SnapshotValid(250);
    assert !ValidActive(SAMPLE, Aggregate(THERE, UNSET), SNAPSHOT, 250);
  }

  lemma ListenerStalls()
    ensures IsLedger(SAMPLE, TO_STALL)
  {
    FetchRecorded();
    MoveStalls();
    LedgerThen(SAMPLE, TO_RECORD, Stall(THERE, 430, 250, true), STALLED);
  }

  lemma ListenerReturns()
    ensures IsLedger(SAMPLE, TO_RETURN)
  {
    ListenerStalls();
    AggregateMoves(THERE, HERE, UNSET);
    AggregateServed(HERE, UNSET, 440);
    ServedFields(410, true);
    ServedFields(UNSET, true);
    assert Prime(SAMPLE, Aggregate(HERE, UNSET), Served(410, true)) == Served(UNSET, true);
    LedgerThen(SAMPLE, TO_STALL, Move(HERE, 440), RETURNED);
  }

  lemma HashesTell(w: World, w': World)
    requires w.durable.lastGood.body == Body(HERE) || w.durable.lastGood.body == Body(THERE)
    requires w'.durable.lastGood.body == Body(HERE) || w'.durable.lastGood.body == Body(THERE)
    ensures HashTells(SAMPLE, w, w')
  {
    BodiesDiffer();
  }

  lemma RunListed()
    ensures TO_RETURN.run == [OPENING, CLAIMED, RECORDED, STALLED, RETURNED]
  {
  }

  lemma RunBodies(w: World)
    requires w in TO_RETURN.run
    ensures w.durable.lastGood.body == Body(HERE) || w.durable.lastGood.body == Body(THERE)
  {
    RunListed();
  }

  lemma RunTells()
    ensures forall w, w' | w in TO_RETURN.run && w' in TO_RETURN.run :: HashTells(SAMPLE, w, w')
    ensures TO_RETURN.run[0] == OPENING && TO_RETURN.Last() == RETURNED
  {
    forall w, w' | w in TO_RETURN.run && w' in TO_RETURN.run
      ensures HashTells(SAMPLE, w, w')
    {
      RunBodies(w);
      RunBodies(w');
      HashesTell(w, w');
    }
    RunListed();
  }

  // The run ends with the stored body served without a proof, the flag set and
  // nobody on the way, so no claim to record a fetch is accepted. It keeps all the
  // premises of ClaimNeverOrphaned.
  lemma FlagStaysSet()
    ensures Lawful(SAMPLE) && IsLedger(SAMPLE, TO_RETURN) && Exact(SAMPLE, OPENING.durable)
    ensures forall w, w' | w in TO_RETURN.run && w' in TO_RETURN.run :: HashTells(SAMPLE, w, w')
    ensures TO_RETURN.run[0] == OPENING && TO_RETURN.Last() == RETURNED
    ensures CacheShows(SAMPLE, RETURNED.durable, RETURNED.cache) && ReloadRecommended(RETURNED.cache)
    ensures RETURNED.inFlight == multiset{} && !Accounted(RETURNED)
    ensures forall generation, hash :: !MayClaim(RETURNED.cache, generation, hash)
  {
    SampleLawful();
    ListenerReturns();
    ServedFields(UNSET, true);
    RunTells();
  }
}
