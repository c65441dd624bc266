/**
 A body rendered from derived nodes is one that both checks accept: it reads
 back as its own links, counts right, and shows the address it was printed for.
 */
module Bodies {
  import opened Foundations
  import opened StateTypes
  import opened Platform
  import opened Credentials
  import opened Rendering
  import opened Durable

  ghost predicate Derivable(p: Platform, g: SubscriptionGeneration, n: PersistedNode) {
    DeriveNode(p, g, n.id, n.provider, n.host, n.port).Ok?
  }

  lemma DerivedLinkUsable(p: Platform, g: SubscriptionGeneration, n: PersistedNode, legacy: bool)
    requires Lawful(p) && Derivable(p, g, n)
    ensures PersistedLink(p, g, n, legacy).Usable()
  {
    var c := Canonicalize(p, n.id, n.provider, n.host, n.port).value;
    var tag := p.selectorTag(g.selectorKey, Fingerprint(c));
    var selector := "n_" + tag;
    var password := "p_" + p.passwordTag(g.proxyKey, selector);
    assert Base64Url(tag) && Base64Url(p.passwordTag(g.proxyKey, selector));
  }

  // A printed usable link is a clean line that parses as itself.
  lemma PrintedLineValid(p: Platform, l: Link, address: string)
    requires Lawful(p) && l.Usable() && p.hostPort(address) == Some(address)
    ensures ValidLine(p, Line(p, l, address))
    ensures '\n' !in Line(p, l, address)
    ensures p.parseLink(Line(p, l, address)) ==
            Some(ParsedLink("socks5", "", address, "", "", l.selector, Some(l.password), true, l.name,
                            Line(p, l, address)))
    ensures forall c | c in Line(p, l, address) :: c < 128 as char
  {
    var t := LinkText(l.selector, l.password, address, l.name);
    assert p.hostPort(address).Some?;
    assert p.hostPort(t.address) == Some(t.address);
  }

  lemma {:induction false} TextIsAscii(p: Platform, links: seq<Link>, address: string)
    requires forall l | l in links :: forall c | c in Line(p, l, address) :: c < 128 as char
    ensures forall c | c in Text(p, links, address) :: c < 128 as char
  {
    if links != [] {
      TextIsAscii(p, links[..|links| - 1], address);
      assert links[|links| - 1] in links;
    }
  }

  ghost predicate PrintableAt(p: Platform, links: seq<Link>, address: string) {
    links != [] && p.hostPort(address) == Some(address) && forall l | l in links :: l.Usable()
  }

  // Decoding and splitting an encoded text gives its lines.
  lemma PrintedBody(p: Platform, links: seq<Link>, address: string)
    requires Lawful(p) && PrintableAt(p, links, address)
    ensures var t := Text(p, links, address);
            var body := p.encode(t);
            && body != "" && p.decode(body) == Some(t) && p.utf8(t)
            && t != "" && t[|t| - 1] == '\n'
            && Split(t[..|t| - 1], '\n') == Lines(p, links, address)
            && (forall line | line in Lines(p, links, address) :: ValidLine(p, line))
            && BodyAddress(p, body) == Some(address)
  {
    forall l | l in links
      ensures ValidLine(p, Line(p, l, address)) && '\n' !in Line(p, l, address)
      ensures forall c | c in Line(p, l, address) :: c < 128 as char
    {
      PrintedLineValid(p, l, address);
    }
    TextSplits(p, links, address);
    TextIsAscii(p, links, address);
    assert links[0] in links;
    PrintedLineValid(p, links[0], address);
    assert Lines(p, links, address)[0] == Line(p, links[0], address);
  }

  lemma {:induction false} EligibleCount(p: Platform, g: SubscriptionGeneration, nodes: seq<PersistedNode>,
                                         legacy: bool)
    requires forall n | n in nodes :: n.Valid() && Derivable(p, g, n)
    ensures |Eligible(PersistedLinks(p, g, nodes, legacy))| == Count(nodes, legacy)
  {
    if nodes != [] {
      var front := nodes[..|nodes| - 1];
      EligibleCount(p, g, front, legacy);
      assert PersistedLinks(p, g, nodes, legacy)[..|nodes| - 1] == PersistedLinks(p, g, front, legacy);
      assert nodes[|nodes| - 1] in nodes;
    }
  }

  lemma PersistedLinksUsable(p: Platform, g: SubscriptionGeneration, nodes: seq<PersistedNode>, legacy: bool)
    requires Lawful(p) && forall n | n in nodes :: Derivable(p, g, n)
    ensures forall l | l in Eligible(PersistedLinks(p, g, nodes, legacy)) :: l.Usable()
  {
    var links := PersistedLinks(p, g, nodes, legacy);
    EligibleExactly(links);
    forall l | l in Eligible(links)
      ensures l.Usable()
    {
      var i :| 0 <= i < |links| && links[i] == l;
      assert nodes[i] in nodes;
      DerivedLinkUsable(p, g, nodes[i], legacy);
    }
  }

  lemma SortKeepsElements(s: seq<Link>)
    ensures |SortLinks(s)| == |s|
    ensures forall l :: l in SortLinks(s) <==> l in s
  {
    SortLinksSorted(s);
    assert |SortLinks(s)| == |multiset(SortLinks(s))| == |multiset(s)|;
    assert forall l :: l in SortLinks(s) <==> l in multiset(SortLinks(s));
  }

  // ---------- what a body says ----------

  // A line offers a node: its name, the listener as the host, and as credentials
  // the selector of the node's identity and the password of that selector.
  ghost predicate Offers(p: Platform, g: SubscriptionGeneration, line: string, n: PersistedNode, host: string) {
    exists identity ::
      && IdentityOf(p, n, identity)
      && var selector := "n_" + p.selectorTag(g.selectorKey, Fingerprint(identity));
      p.parseLink(line) == Some(ParsedLink("socks5", "", host, "", "", selector,
                                           Some("p_" + p.passwordTag(g.proxyKey, selector)), true, n.name, line))
  }

  ghost predicate IdentityOf(p: Platform, n: PersistedNode, identity: CanonicalIdentity) {
    && identity.nodeID == n.id && identity.port == n.port && p.hostForm(n.host) == Some(identity.host)
    && UpperCaseOf(n.provider, identity.provider)
  }

  lemma LinkOffers(p: Platform, g: SubscriptionGeneration, n: PersistedNode, host: string)
    requires Lawful(p) && Derivable(p, g, n) && p.hostPort(host) == Some(host)
    ensures Offers(p, g, Line(p, PersistedLink(p, g, n, false), host), n, host)
  {
    var identity := Canonicalize(p, n.id, n.provider, n.host, n.port).value;
    DerivedLinkUsable(p, g, n, false);
    PrintedLineValid(p, PersistedLink(p, g, n, false), host);
    UpperExactly(n.provider, identity.provider);
    assert IdentityOf(p, n, identity);
  }

  // Who reads a rendered body finds exactly the nodes that can be tunnelled to,
  // one line for each, in the order of group, name and selector.
  lemma BodyOffers(p: Platform, g: SubscriptionGeneration, nodes: seq<PersistedNode>, address: string)
    requires Lawful(p)
    requires forall n | n in nodes :: n.Valid() && Derivable(p, g, n)
    requires Rendered(p, PersistedLinks(p, g, nodes, false), address).Ok?
    ensures var text := p.decode(Rendered(p, PersistedLinks(p, g, nodes, false), address).value.0);
            && text.Some? && text.value != "" && p.hostPort(address).Some?
            && var (lines, host) := (Split(text.value[..|text.value| - 1], '\n'), p.hostPort(address).value);
            && |lines| == Count(nodes, false)
            && (forall line | line in lines :: exists n :: n in nodes && n.Renderable() && Offers(p, g, line, n, host))
            && (forall n | n in nodes && n.Renderable() ::
                  exists line :: line in lines && Offers(p, g, line, n, host))
  {
    var links := PersistedLinks(p, g, nodes, false);
    var h := p.hostPort(address).value;
    assert p.hostPort(address).Some? && p.hostPort(h) == Some(h);
    var sorted := SortLinks(Eligible(links));
    PersistedLinksUsable(p, g, nodes, false);
    SortKeepsElements(Eligible(links));
    PrintedBody(p, sorted, h);
    EligibleCount(p, g, nodes, false);
    LinesOffer(p, g, nodes, sorted, h);
  }

  lemma LinesOffer(p: Platform, g: SubscriptionGeneration, nodes: seq<PersistedNode>, sorted: seq<Link>, h: string)
    requires Lawful(p) && p.hostPort(h) == Some(h) && forall n | n in nodes :: Derivable(p, g, n)
    requires forall l :: l in sorted <==> l in Eligible(PersistedLinks(p, g, nodes, false))
    ensures var lines := Lines(p, sorted, h);
            && (forall line | line in lines :: exists n :: n in nodes && n.Renderable() && Offers(p, g, line, n, h))
            && (forall n | n in nodes && n.Renderable() :: exists line :: line in lines && Offers(p, g, line, n, h))
  {
    var links, lines := PersistedLinks(p, g, nodes, false), Lines(p, sorted, h);
    EligibleExactly(links);
    forall line | line in lines
      ensures exists n :: n in nodes && n.Renderable() && Offers(p, g, line, n, h)
    {
      var i :| 0 <= i < |lines| && lines[i] == line;
      assert sorted[i] in sorted && sorted[i] in links;
      var k :| 0 <= k < |links| && links[k] == sorted[i];
      assert nodes[k] in nodes;
      LinkOffers(p, g, nodes[k], h);
    }
    forall n | n in nodes && n.Renderable()
      ensures exists line :: line in lines && Offers(p, g, line, n, h)
    {
      var k :| 0 <= k < |nodes| && nodes[k] == n;
      assert links[k] in sorted;
      var i :| 0 <= i < |sorted| && sorted[i] == links[k];
      LinkOffers(p, g, n, h);
      assert lines[i] in lines;
    }
  }

  // The main fact about bodies.
  lemma RenderedBodyAccepted(p: Platform, g: SubscriptionGeneration, nodes: seq<PersistedNode>, address: string)
    requires Lawful(p)
    requires forall n | n in nodes :: n.Valid() && Derivable(p, g, n)
    requires Rendered(p, PersistedLinks(p, g, nodes, false), address).Ok?
    ensures var body := Rendered(p, PersistedLinks(p, g, nodes, false), address).value.0;
            && ValidBody(p, body, nodes)
            && BodyAddress(p, body) == p.hostPort(address)
            && RendersAs(p, PersistedLinks(p, g, nodes, false), BodyAddress(p, body).value, body)
  {
    var links := PersistedLinks(p, g, nodes, false);
    var h := p.hostPort(address).value;
    assert p.hostPort(address).Some?;
    assert p.hostPort(h) == Some(h);
    var sorted := SortLinks(Eligible(links));
    PersistedLinksUsable(p, g, nodes, false);
    SortKeepsElements(Eligible(links));
    PrintedBody(p, sorted, h);
    EligibleCount(p, g, nodes, false);
    assert |Lines(p, sorted, h)| == Count(nodes, false);
  }
}
