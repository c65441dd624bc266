/**
 The rendered subscription body: filter the eligible links, sort them, print
 one URL a line, encode (internal/subscription/subscription.go).
 */
module Rendering {
  import opened Foundations
  import opened StateTypes
  import opened Platform

  const MAX_RENDERED: nat := 10 * 1024 * 1024

  datatype Link = Link(selector: string, password: string, name: string, group: string, eligible: bool) {
    predicate Usable() {
      selector != "" && password != "" && NUL !in selector && NUL !in password
    }
  }

  datatype RenderError = InvalidAddress | InvalidCredential | NoEligibleLinks | TooLarge

  // ---------- order of links ----------

  predicate LinkLess(a: Link, b: Link) {
    if a.group != b.group then StringLess(a.group, b.group)
    else if a.name != b.name then StringLess(a.name, b.name)
    else StringLess(a.selector, b.selector)
  }

  // By group, then by name, then by selector.
  lemma LinkLessExactly(a: Link, b: Link)
    ensures LinkLess(a, b) <==>
              || StringLess(a.group, b.group)
              || (a.group == b.group && StringLess(a.name, b.name))
              || (a.group == b.group && a.name == b.name && StringLess(a.selector, b.selector))
  {
    StringLessIrreflexive(a.group);
    StringLessIrreflexive(a.name);
  }

  predicate LinkLe(a: Link, b: Link) {
    !LinkLess(b, a)
  }

  lemma LinkLessTransitive(x: Link, y: Link, z: Link)
    requires LinkLess(x, y) && LinkLess(y, z)
    ensures LinkLess(x, z)
  {
    if x.group == y.group == z.group {
      if x.name == y.name == z.name {
        StringLessTransitive(x.selector, y.selector, z.selector);
      } else if x.name != y.name && y.name != z.name {
        StringLessTransitive(x.name, y.name, z.name);
        StringLessIrreflexive(x.name);
      }
    } else if x.group != y.group && y.group != z.group {
      StringLessTransitive(x.group, y.group, z.group);
      StringLessIrreflexive(x.group);
    }
  }

  lemma LinkLessTotal(x: Link, y: Link)
    ensures LinkLess(x, y) || LinkLess(y, x) || (x.group == y.group && x.name == y.name && x.selector == y.selector)
    ensures !LinkLess(x, x)
  {
    StringLessTotal(x.group, y.group);
    StringLessTotal(x.name, y.name);
    StringLessTotal(x.selector, y.selector);
    StringLessIrreflexive(x.selector);
  }

  lemma LinkOrder()
    ensures Preorder(LinkLe)
  {
    forall x: Link, y: Link
      ensures LinkLe(x, y) || LinkLe(y, x)
    {
      if LinkLess(x, y) && LinkLess(y, x) {
        LinkLessTransitive(x, y, x);
        LinkLessTotal(x, x);
      }
    }
    forall x: Link, y: Link, z: Link | LinkLe(x, y) && LinkLe(y, z)
      ensures LinkLe(x, z)
    {
      if LinkLess(z, x) {
        LinkLessTotal(x, y);
        if LinkLess(x, y) {
          LinkLessTransitive(z, x, y);
        } else {
          assert LinkLess(z, y);
        }
      }
    }
  }

  // ---------- the specification ----------

  function Eligible(links: seq<Link>): seq<Link> {
    if links == [] then []
    else if links[|links| - 1].eligible then Eligible(links[..|links| - 1]) + [links[|links| - 1]]
    else Eligible(links[..|links| - 1])
  }

  lemma {:induction false} EligibleExactly(links: seq<Link>)
    ensures forall l :: l in Eligible(links) <==> l in links && l.eligible
  {
    if links != [] {
      EligibleExactly(links[..|links| - 1]);
      assert links == links[..|links| - 1] + [links[|links| - 1]];
    }
  }

  function InsertLink(s: seq<Link>, l: Link): seq<Link> {
    if s == [] || LinkLess(l, s[0]) then [l] + s else [s[0]] + InsertLink(s[1..], l)
  }

  function SortLinks(s: seq<Link>): seq<Link> {
    if s == [] then [] else InsertLink(SortLinks(s[1..]), s[0])
  }

  lemma {:induction false} InsertLinkSorted(s: seq<Link>, l: Link)
    requires Sorted(LinkLe, s)
    ensures Sorted(LinkLe, InsertLink(s, l))
    ensures multiset(InsertLink(s, l)) == multiset(s) + multiset{l}
  {
    LinkOrder();
    if s == [] {
    } else if LinkLess(l, s[0]) {
      assert LinkLe(l, s[0]);
      forall j | 0 <= j < |s|
        ensures LinkLe(l, s[j])
      {
        assert j > 0 ==> LinkLe(s[0], s[j]);
      }
    } else {
      SortedTail(LinkLe, s);
      InsertLinkSorted(s[1..], l);
      var t := InsertLink(s[1..], l);
      assert s == [s[0]] + s[1..];
      forall j | 0 <= j < |t|
        ensures LinkLe(s[0], t[j])
      {
        assert t[j] in multiset(t);
        assert t[j] == l || t[j] in multiset(s[1..]);
        if t[j] in s[1..] {
          SortedHead(LinkLe, s, t[j]);
        }
      }
    }
  }

  lemma {:induction false} SortLinksSorted(s: seq<Link>)
    ensures Sorted(LinkLe, SortLinks(s)) && multiset(SortLinks(s)) == multiset(s)
  {
    if s != [] {
      SortLinksSorted(s[1..]);
      InsertLinkSorted(SortLinks(s[1..]), s[0]);
      assert s == [s[0]] + s[1..];
    }
  }

  // Sorted links come in that order.
  lemma SortedByGroup(s: seq<Link>, i: nat, j: nat)
    requires i < j < |SortLinks(s)|
    ensures var (a, b) := (SortLinks(s)[i], SortLinks(s)[j]);
            && (a.group == b.group || StringLess(a.group, b.group))
            && (a.group == b.group ==> a.name == b.name || StringLess(a.name, b.name))
            && (a.group == b.group && a.name == b.name ==>
                  a.selector == b.selector || StringLess(a.selector, b.selector))
  {
    SortLinksSorted(s);
    var (a, b) := (SortLinks(s)[i], SortLinks(s)[j]);
    assert LinkLe(a, b);
    LinkLessExactly(b, a);
    StringLessTotal(a.group, b.group);
    StringLessTotal(a.name, b.name);
    StringLessTotal(a.selector, b.selector);
  }

  function Line(p: Platform, l: Link, address: string): string {
    p.printLink(LinkText(l.selector, l.password, address, l.name))
  }

  function Text(p: Platform, links: seq<Link>, address: string): string {
    if links == [] then ""
    else Text(p, links[..|links| - 1], address) + Line(p, links[|links| - 1], address) + "\n"
  }

  // The result for a given arrangement of the eligible links.
  ghost function RenderedIn(p: Platform, links: seq<Link>, arranged: seq<Link>, address: string): Result<(string, nat),
      RenderError> {
    var h := p.hostPort(address);
    var eligible := Eligible(links);
    if h.None? then Err(InvalidAddress)
    else if exists l :: l in eligible && !l.Usable() then Err(InvalidCredential)
    else if eligible == [] then Err(NoEligibleLinks)
    else
      var body := p.encode(Text(p, arranged, h.value));
      if |body| > MAX_RENDERED then Err(TooLarge) else Ok((body, |eligible|))
  }

  ghost function Rendered(p: Platform, links: seq<Link>, address: string): Result<(string, nat), RenderError> {
    RenderedIn(p, links, SortLinks(Eligible(links)), address)
  }

  // The eligible links in the order of group, name and selector; links that tie
  // may come in any order.
  ghost predicate Arranged(links: seq<Link>, arranged: seq<Link>) {
    Sorted(LinkLe, arranged) && multiset(arranged) == multiset(Eligible(links))
  }

  // Equal selectors come with equal passwords, as they do when both are derived.
  ghost predicate Coherent(links: seq<Link>) {
    forall a, b | a in links && b in links && a.selector == b.selector :: a.password == b.password
  }

  lemma CoherentTies(s: seq<Link>)
    requires Coherent(s) && forall l | l in s :: l.eligible
    ensures TiesAreEqual(LinkLe, multiset(s))
  {
    forall x, y | x in multiset(s) && y in multiset(s) && LinkLe(x, y) && LinkLe(y, x)
      ensures x == y
    {
      assert x in s && y in s;
      LinkLessTotal(x, y);
    }
  }

  // Any way of sorting coherent links gives the specified order.
  lemma AnySortAgrees(eligible: seq<Link>, sorted: seq<Link>)
    requires Coherent(eligible) && forall l | l in eligible :: l.eligible
    requires Sorted(LinkLe, sorted) && multiset(sorted) == multiset(eligible)
    ensures sorted == SortLinks(eligible)
  {
    LinkOrder();
    SortLinksSorted(eligible);
    CoherentTies(eligible);
    SortedUnique(LinkLe, sorted, SortLinks(eligible));
  }

  lemma {:induction false} EligibleMultiset(links: seq<Link>, l: Link)
    ensures multiset(Eligible(links))[l] == if l.eligible then multiset(links)[l] else 0
  {
    if links != [] {
      EligibleMultiset(links[..|links| - 1], l);
      assert links == links[..|links| - 1] + [links[|links| - 1]];
    }
  }

  lemma EligibleSameMultiset(a: seq<Link>, b: seq<Link>)
    requires multiset(a) == multiset(b)
    ensures multiset(Eligible(a)) == multiset(Eligible(b))
    ensures forall l :: l in Eligible(a) <==> l in Eligible(b)
    ensures |Eligible(a)| == |Eligible(b)|
  {
    forall l
      ensures multiset(Eligible(a))[l] == multiset(Eligible(b))[l]
      ensures l in Eligible(a) <==> l in Eligible(b)
    {
      EligibleMultiset(a, l);
      EligibleMultiset(b, l);
      assert l in Eligible(a) <==> l in multiset(Eligible(a));
      assert l in Eligible(b) <==> l in multiset(Eligible(b));
    }
    assert multiset(Eligible(a)) == multiset(Eligible(b));
    assert |multiset(Eligible(a))| == |multiset(Eligible(b))|;
  }

  lemma SortedEligibleSame(a: seq<Link>, b: seq<Link>)
    requires multiset(a) == multiset(b) && Coherent(a)
    ensures SortLinks(Eligible(a)) == SortLinks(Eligible(b))
  {
    EligibleSameMultiset(a, b);
    EligibleExactly(a);
    SortLinksSorted(Eligible(b));
    AnySortAgrees(Eligible(a), SortLinks(Eligible(b)));
  }

  // The body depends only on which links are given, not on their order.
  lemma RenderedOrderFree(p: Platform, a: seq<Link>, b: seq<Link>, address: string)
    requires multiset(a) == multiset(b) && Coherent(a)
    ensures Rendered(p, a, address) == Rendered(p, b, address)
  {
    EligibleSameMultiset(a, b);
    SortedEligibleSame(a, b);
    assert Eligible(a) == [] <==> Eligible(b) == [];
  }

  // ---------- the program ----------

  method Render(p: Platform, links: seq<Link>, address: string) returns (r: Result<(string, nat), RenderError>)
    ensures exists arranged :: Arranged(links, arranged) && r == RenderedIn(p, links, arranged, address)
    ensures Coherent(links) ==> r == Rendered(p, links, address)
  {
    SortLinksSorted(Eligible(links));
    assert Arranged(links, SortLinks(Eligible(links)));
    var h := p.hostPort(address);
    if h.None? {
      return Err(InvalidAddress);
    }
    var eligible: seq<Link> := [];
    for i := 0 to |links|
      invariant eligible == Eligible(links[..i])
      invariant forall l | l in eligible :: l.Usable()
    {
      var link := links[i];
      assert links[..i + 1][..i] == links[..i];
      if link.eligible {
        if link.selector == "" || link.password == "" || NUL in link.selector || NUL in link.password {
          EligibleExactly(links);
          assert link in Eligible(links);
          return Err(InvalidCredential);
        }
        eligible := eligible + [link];
      }
    }
    assert links[..|links|] == links;
    if |eligible| == 0 {
      return Err(NoEligibleLinks);
    }
    LinkOrder();
    EligibleExactly(links);
    var sorted := SortSlice(LinkLe, eligible);
    assert Arranged(links, sorted);
    var text := "";
    for i := 0 to |sorted|
      invariant text == Text(p, sorted[..i], h.value)
    {
      assert sorted[..i + 1][..i] == sorted[..i];
      var link := sorted[i];
      text := text + p.printLink(LinkText(link.selector, link.password, h.value, link.name)) + "\n";
    }
    assert sorted[..|sorted|] == sorted;
    var body := p.encode(text);
    if Coherent(links) {
      AnySortAgrees(eligible, sorted);
    }
    if |body| > MAX_RENDERED {
      return Err(TooLarge);
    }
    return Ok((body, |eligible|));
  }

  // ---------- reading a body back ----------

  // The pieces of s between occurrences of the separator.
  function Split(s: string, separator: char): (r: seq<string>)
    ensures r != []
  {
    if s == [] then [[]]
    else
      var front := Split(s[..|s| - 1], separator);
      var c := s[|s| - 1];
      if c == separator then front + [[]]
      else front[..|front| - 1] + [front[|front| - 1] + [c]]
  }

  lemma {:induction false} SplitPiece(s: string, piece: string, separator: char)
    requires separator !in piece
    ensures var front := Split(s, separator);
            Split(s + piece, separator) == front[..|front| - 1] + [front[|front| - 1] + piece]
    decreases |piece|
  {
    if piece == [] {
      assert s + piece == s;
      LastGrows(Split(s, separator), [], []);
    } else {
      var most, c := piece[..|piece| - 1], piece[|piece| - 1];
      SplitPiece(s, most, separator);
      assert s + piece == s + most + [c] && piece == most + [c];
      SplitMore(s + most, c, separator);
      LastGrows(Split(s, separator), most, [c]);
    }
  }

  lemma SplitMore(s: string, c: char, separator: char)
    requires c != separator
    ensures var front := Split(s, separator);
            Split(s + [c], separator) == front[..|front| - 1] + [front[|front| - 1] + [c]]
  {
    assert (s + [c])[..|s|] == s;
  }

  // Extending the last piece twice is extending it once.
  lemma LastGrows(pieces: seq<string>, a: string, b: string)
    requires pieces != []
    ensures var n := |pieces| - 1;
            var once := pieces[..n] + [pieces[n] + a];
            once[..n] + [once[n] + b] == pieces[..n] + [pieces[n] + (a + b)]
    ensures pieces == pieces[..|pieces| - 1] + [pieces[|pieces| - 1] + []]
  {
    assert pieces[|pieces| - 1] + a + b == pieces[|pieces| - 1] + (a + b);
    assert pieces[|pieces| - 1] + [] == pieces[|pieces| - 1];
  }

  function Lines(p: Platform, links: seq<Link>, address: string): seq<string> {
    seq(|links|, i requires 0 <= i < |links| => Line(p, links[i], address))
  }

  lemma SplitNext(before: string, piece: string, separator: char)
    requires separator !in piece
    ensures Split(before + [separator] + piece, separator) == Split(before, separator) + [piece]
  {
    var s := before + [separator];
    assert s[..|s| - 1] == before;
    assert Split(s, separator) == Split(before, separator) + [[]];
    SplitPiece(s, piece, separator);
    assert [] + piece == piece;
  }

  lemma SplitAlone(piece: string, separator: char)
    requires separator !in piece
    ensures Split(piece, separator) == [piece]
  {
    SplitPiece([], piece, separator);
    assert [] + piece == piece;
  }

  lemma TextUnfolds(p: Platform, links: seq<Link>, address: string)
    requires |links| > 0
    ensures var t := Text(p, links, address);
            var last := Line(p, links[|links| - 1], address);
            && t != "" && t[|t| - 1] == '\n'
            && t[..|t| - 1] == Text(p, links[..|links| - 1], address) + last
            && Lines(p, links, address) == Lines(p, links[..|links| - 1], address) + [last]
  {
    var t := Text(p, links, address);
    assert t == Text(p, links[..|links| - 1], address) + Line(p, links[|links| - 1], address) + "\n";
  }

  // Splitting printed text gives back the printed lines.
  lemma {:induction false} TextSplits(p: Platform, links: seq<Link>, address: string)
    requires links != []
    requires forall l | l in links :: '\n' !in Line(p, l, address)
    ensures var t := Text(p, links, address);
            t != "" && t[|t| - 1] == '\n' && Split(t[..|t| - 1], '\n') == Lines(p, links, address)
    decreases |links|
  {
    var front := links[..|links| - 1];
    var last := Line(p, links[|links| - 1], address);
    TextUnfolds(p, links, address);
    if front == [] {
      assert Text(p, front, address) + last == last;
      SplitAlone(last, '\n');
    } else {
      TextUnfolds(p, front, address);
      TextSplits(p, front, address);
      var u := Text(p, front, address);
      assert u == u[..|u| - 1] + ['\n'];
      SplitNext(u[..|u| - 1], last, '\n');
    }
  }
}
