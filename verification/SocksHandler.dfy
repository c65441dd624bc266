/**
 The SOCKS handler as the program runs it (internal/socks/server.go, HandleConn):
 one step is one look at the clock, the registry pointer or the manager. Each is
 proved against the step of the same name in Admission.
 */
module SocksHandler {
  import opened Foundations
  import opened StateTypes
  import opened Platform
  import opened Credentials
  import opened Manager
  import opened Control
  import opened Admission

  // strings.EqualFold with the name of the cipher, on bytes.
  method EqualFoldCipher(name: string) returns (same: bool)
    ensures same <==> SupportedCipher(name)
  {
    var wanted := "AES-256-CFB";
    var i, j := 0, 0;
    CipherUpper();
    assert name[0..] == name && wanted[0..] == wanted;
    while i < |name|
      invariant i <= |name| && j <= 11
      invariant SupportedCipher(name) <==> FoldedName(name[i..]) == wanted[j..]
      decreases |name| - i
    {
      if j == 11 {
        return false;
      }
      var c, next := name[i], i + 1;
      if 'a' <= c <= 'z' {
        c := (c as int - 32) as char;
      } else if c as int == 0xC5 && i + 1 < |name| && name[i + 1] as int == 0xBF {
        c, next := 'S', i + 2;
      }
      FoldedFirst(name, i, c, next);
      assert wanted[j..] == [wanted[j]] + wanted[j + 1..];
      if c != wanted[j] {
        assert ([c] + FoldedName(name[next..]))[0] != ([wanted[j]] + wanted[j + 1..])[0];
        return false;
      }
      assert ([c] + FoldedName(name[next..]))[1..] == FoldedName(name[next..]);
      assert ([wanted[j]] + wanted[j + 1..])[1..] == wanted[j + 1..];
      i, j := next, j + 1;
    }
    return j == 11;
  }

  lemma FoldedFirst(name: string, i: nat, c: char, next: nat)
    requires i < |name|
    requires if name[i] as int == 0xC5 && i + 1 < |name| && name[i + 1] as int == 0xBF then c == 'S' && next == i + 2
             else next == i + 1 && c == if 'a' <= name[i] <= 'z' then (name[i] as int - 32) as char else name[i]
    ensures FoldedName(name[i..]) == [c] + FoldedName(name[next..])
  {
    assert name[i..][0] == name[i] && name[i..][1..] == name[i + 1..];
    if i + 1 < |name| {
      assert name[i..][1] == name[i + 1] && name[i..][2..] == name[i + 2..];
    }
  }

  method SameAuthority(left: TunnelPin, right: TunnelPin) returns (same: bool)
    ensures same <==> SamePinAuthority(left, right)
  {
    if left.expiresAt != right.expiresAt {
      return false;
    }
    var (a, b) := (left.session, right.session);
    return a.userID == b.userID && a.loginToken == b.loginToken && a.providerToken == b.providerToken
        && a.tunnelPassword == b.tunnelPassword && a.tunnelMethod == b.tunnelMethod && a.extension == b.extension;
  }

  method SameNodes(p: Platform, left: Node, right: Node) returns (same: bool)
    ensures same <==> SameCanonicalNode(p, left, right)
  {
    var a := CanonicalIdentityOf(p, left.id, left.provider, left.host, left.port);
    var b := CanonicalIdentityOf(p, right.id, right.provider, right.host, right.port);
    return a.Ok? && b.Ok? && a.value.nodeID == b.value.nodeID && a.value.provider == b.value.provider
        && a.value.host == b.value.host && a.value.port == b.value.port;
  }

  method ConfirmPin(p: Platform, earlier: TunnelPin, later: TunnelPin) returns (same: bool)
    ensures same <==> Confirms(p, earlier, later)
  {
    if !later.node.TunnelEligible() {
      return false;
    }
    var authority := SameAuthority(earlier, later);
    var node := SameNodes(p, earlier.node, later.node);
    return authority && node;
  }

  // A prefix and characters of the URL alphabet, of a given length in all.
  method WellShaped(s: string, first: char, length: nat) returns (ok: bool)
    requires length > 2
    ensures ok <==> |s| == length && s[..2] == [first, '_'] && Base64Url(s[2..])
  {
    if |s| != length || s[0] != first || s[1] != '_' {
      return false;
    }
    for i := 2 to |s|
      invariant forall j | 2 <= j < i :: Base64Url([s[j]])
    {
      var c := s[i];
      if !('A' <= c <= 'Z' || 'a' <= c <= 'z' || '0' <= c <= '9' || c == '-' || c == '_') {
        assert c == s[2..][i - 2] && c in s[2..];
        return false;
      }
    }
    forall c | c in s[2..]
      ensures Base64Url([c])
    {
      var k :| 0 <= k < |s[2..]| && s[2..][k] == c;
      assert s[k + 2] == c;
    }
    assert forall c | c in s[2..] :: c in [c] && Base64Url([c]);
    return true;
  }

  class SocksConnection {
    const platform: Platform
    const manager: StateManager
    const username: string
    const password: string
    var at: Place
    var now: Time
    var registry: Option<Registry>
    var pin: Option<TunnelPin>
    var dialled: Option<Node>
    var sent: Option<SessionSecrets>
    // For the record only.
    ghost var rounds: seq<Round>
    ghost var confirmed: Option<(nat, Time)>

    constructor (manager: StateManager, username: string, password: string)
      ensures this.manager == manager && this.platform == manager.platform && Valid()
      ensures View() == CONNECTED.(username := username, password := password)
    {
      this.platform, this.manager, this.username, this.password := manager.platform, manager, username, password;
      at, now, registry, pin, dialled, sent := Greeting, UNSET, None, None, None, None;
      rounds, confirmed := [], None;
    }

    ghost function View(): Handler
      reads this
    {
      Handler(at, username, password, now, registry, rounds, dialled, sent, confirmed)
    }

    ghost predicate Valid()
      reads this
    {
      manager.platform == platform && View().Pin() == pin
    }

    // One step; loaded is what the registry pointer shows, clock what the clock reads.
    method Advance(loaded: Registry, clock: Time, ghost index: nat)
      requires Valid()
      modifies this
      ensures Valid() && View() == Step(platform, old(View()), Control(manager.View(), loaded, 0, Idle), clock, index)
    {
      match at {
        case Greeting =>
          now := clock;
          at := LoadFirst;
        case LoadFirst => Authenticate(loaded, PinFirst);
        case PinFirst => ResolveSelector(AwaitRequest, index);
        case AwaitRequest =>
          now := clock;
          at := LoadAgain;
        case LoadAgain => Authenticate(loaded, PinAgain);
        case PinAgain => ResolveSelector(RecheckAgain, index);
        case RecheckAgain => CompareRegistry(loaded, Dialling);
        case Dialling => Dial();
        case Acknowledging =>
          now := clock;
          at := SessionFinal;
        case SessionFinal => Confirm(index);
        case LoadFinal => Authenticate(loaded, PinFinal);
        case PinFinal => ResolveSelector(RecheckFinal, index);
        case RecheckFinal => CompareRegistry(loaded, Replied);
        case Replied =>
        case Closed =>
      }
    }

    method Authenticate(loaded: Registry, next: Place)
      requires Valid()
      modifies `registry, `at
      ensures Valid() && View() == Load(platform, old(View()), loaded, next)
    {
      registry := Some(loaded);
      var selectorOk := WellShaped(username, 'n', 18);
      var passwordOk := WellShaped(password, 'p', 26);
      if !selectorOk || !passwordOk {
        at := Closed;
        return;
      }
      var expected := "p_" + platform.passwordTag(loaded.proxyKey, username);
      at := if password == expected then next else Closed;
    }

    // Resolve the selector; all but the first time it has to be what it was.
    method ResolveSelector(next: Place, ghost index: nat)
      requires Valid()
      modifies `pin, `rounds, `at
      ensures Valid() && View() == Settle(platform, old(View()), manager.View(), index, next)
    {
      var resolved := CurrentPin();
      if resolved.None? {
        at := Closed;
        return;
      }
      if pin.Some? {
        var same := ConfirmPin(platform, pin.value, resolved.value);
        if !same {
          at := Closed;
          return;
        }
      }
      pin := resolved;
      rounds := rounds + [Round(index, registry.value, now, resolved.value)];
      at := next;
    }

    // The pin of a node that can be tunnelled to.
    method CurrentPin() returns (r: Option<TunnelPin>)
      ensures r == Resolve(View(), manager.View())
    {
      if registry.None? {
        return None;
      }
      var resolved := manager.Pin(username, registry.value.generation, now);
      if resolved.Err? || !resolved.value.node.TunnelEligible() {
        return None;
      }
      return Some(resolved.value);
    }

    method CompareRegistry(loaded: Registry, next: Place)
      requires Valid()
      modifies `at
      ensures Valid() && View() == Recheck(old(View()), loaded, next)
    {
      if registry.None? || registry.value.id != loaded.id {
        at := Closed;
      } else {
        at := next;
      }
    }

    method Dial()
      requires Valid() && at == Dialling
      modifies `dialled, `sent, `at
      ensures Valid() && forall c: Control, clock, index :: View() == Step(platform, old(View()), c, clock, index)
    {
      if pin.None? {
        at := Closed;
        return;
      }
      var supported := EqualFoldCipher(pin.value.session.tunnelMethod);
      if !supported {
        at := Closed;
        return;
      }
      dialled := Some(pin.value.node);
      sent := Some(pin.value.session);
      at := Acknowledging;
    }

    method Confirm(ghost index: nat)
      requires Valid() && at == SessionFinal
      modifies `confirmed, `at
      ensures Valid()
      ensures forall c: Control, clock ::
                c.m == manager.View() ==> View() == Step(platform, old(View()), c, clock, index)
    {
      if pin.None? {
        at := Closed;
        return;
      }
      var current := manager.ConfirmSession(pin.value, now);
      if !current {
        at := Closed;
        return;
      }
      confirmed := Some((index, now));
      at := LoadFinal;
    }
  }
}
