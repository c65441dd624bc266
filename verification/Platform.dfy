/**
 What the adapter takes from elsewhere: keyed hashes, host canonicalisation,
 Base64 and URL text. Each is an unknown deterministic function; Lawful lists
 all that the proofs rely on. Collisions of keyed hashes are never ruled out.
 */
module Platform {
  import opened Foundations
  import opened StateTypes

  datatype CanonicalIdentity = CanonicalIdentity(nodeID: string, provider: string, host: string, port: nat)

  datatype LinkText = LinkText(selector: string, password: string, address: string, name: string)

  // The parts of a parsed URL that the checks look at, and its printed form.
  datatype ParsedLink = ParsedLink(scheme: string, opaqueness: string, host: string, path: string, query: string,
                                   username: string, password: Option<string>, hasUser: bool, fragment: string,
                                   text: string)

  datatype Platform = Platform(
    hostForm: string -> Option<string>,            // canonical host, if it has one
    selectorTag: (Key, string) -> string,
    passwordTag: (Key, string) -> string,
    bindingTag: (Key, string) -> Key,
    trim: string -> string,                        // strip surrounding white space
    bodyHash: string -> Key,
    encode: string -> string,                      // Base64
    decode: string -> Option<string>,
    utf8: string -> bool,
    hostPort: string -> Option<string>,            // parse an address and join it again
    standsFor: (string, string) -> bool,           // a concrete address of a wildcard listener: same port, same family
    printLink: LinkText -> string,
    parseLink: string -> Option<ParsedLink>)

  predicate Base64Url(s: string) {
    forall c | c in s :: 'a' <= c <= 'z' || 'A' <= c <= 'Z' || '0' <= c <= '9' || c == '-' || c == '_'
  }

  const URL_ALPHABET: string := UPPER_CASE + LOWER_CASE + DIGITS + "-_"

  lemma Base64UrlExactly(s: string)
    ensures Base64Url(s) <==> forall c | c in s :: c in URL_ALPHABET
  {
    forall c: char
      ensures c in URL_ALPHABET <==> 'a' <= c <= 'z' || 'A' <= c <= 'Z' || '0' <= c <= '9' || c == '-' || c == '_'
    {
      SmallLetters(c);
      CapitalLetters(c);
      DigitCharacters(c);
    }
  }

  ghost predicate LawfulHosts(p: Platform) {
    forall h: string | p.hostForm(h).Some? ::
      var canonical := p.hostForm(h).value;
      canonical != "" && NUL !in canonical && p.hostForm(canonical) == Some(canonical)
  }

  ghost predicate LawfulTags(p: Platform) {
    && (forall k: Key, s: string :: |p.selectorTag(k, s)| == 16 && Base64Url(p.selectorTag(k, s)))
    && (forall k: Key, s: string :: |p.passwordTag(k, s)| == 24 && Base64Url(p.passwordTag(k, s)))
    && (forall k: Key, s: string :: |p.bindingTag(k, s)| == KEY_SIZE)
    && (forall s: string :: |p.bodyHash(s)| == KEY_SIZE)
  }

  ghost predicate LawfulText(p: Platform) {
    && (forall t: string :: p.decode(p.encode(t)) == Some(t))
    && (forall t: string :: t != "" ==> p.encode(t) != "")
    && p.trim("") == ""
    && (forall t: string :: (forall c | c in t :: c < 128 as char) ==> p.utf8(t))
    && (forall a: string | p.hostPort(a).Some? ::
          p.hostPort(a).value != "" && p.hostPort(p.hostPort(a).value) == p.hostPort(a))
  }

  ghost predicate LawfulLinks(p: Platform) {
    forall l: LinkText | l.selector != "" && l.password != "" && p.hostPort(l.address) == Some(l.address) ::
      var line := p.printLink(l);
      && line != ""
      && (forall c | c in line :: 32 as char < c < 127 as char)
      && p.parseLink(line) ==
         Some(ParsedLink("socks5", "", l.address, "", "", l.selector, Some(l.password), true, l.name, line))
  }

  ghost predicate Lawful(p: Platform) {
    LawfulHosts(p) && LawfulTags(p) && LawfulText(p) && LawfulLinks(p)
  }
}
