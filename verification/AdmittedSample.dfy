/**
 Somebody is admitted: a concrete manager and registry, and a run in which the
 handler of a client with issued credentials gets its success reply
 (internal/socks/server.go).
 */
module AdmittedSample {
  import opened Foundations
  import opened StateTypes
  import opened Platform
  import opened Credentials
  import opened Manager
  import opened ManagerRuns
  import opened Control
  import opened Admission
  import opened Setback

  const SERVED: Node := NODE.(profile := IOS)
  const REFERENCE: NodeRef := NodeRef("n", 1, false, UNSET)
  const OFFERED: RuntimeSnapshot := SNAPSHOT.(nodes := [SERVED], selectors := map[SERVED.selector := REFERENCE])
  const READY: ManagerState := ManagerState(ServiceState.Ready, None, 0, KEYS, Some(KEY), Some(OFFERED))
  const CONTROL: Control := Control(READY, Registry(0, 1, KEY, KEY), 1, Idle)
  const PASSWORD: string := "p_" + Repeated('a', 24)

  lemma SampleSound()
    ensures Sound(SAMPLE, CONTROL)
  {
    SessionsPersist();
    AccountBinds();
    assert BoundTo(SAMPLE, KEYS, Some(KEY), "u");
  }

  lemma SampleCredited()
    ensures Credited(SAMPLE, KEY, SERVED.selector, PASSWORD)
  {
    SmallLetters('a');
    assert 'a' in URL_ALPHABET;
  }

  lemma SamplePinned()
    ensures PinFor(READY, SERVED.selector, 1, 200, TunnelPin(SESSIONS.ios, 300, SERVED, REFERENCE))
  {
    SessionsPersist();
    assert FindNode(OFFERED.nodes, "n") == Some(SERVED);
  }

  lemma SampleUsable()
    ensures Usable(SERVED) && Nameable(SAMPLE, SERVED) && CipherName(SESSIONS.ios.tunnelMethod)
  {
    NodeDerives();
    assert SpelledFrom(TUNNEL_METHOD, 0);
  }

  lemma SomebodyIsAdmitted()
    ensures exists run: seq<World>, events: seq<Event> ::
              IsRun(SAMPLE, run, events) && run[|run| - 1].handler.at == Replied
  {
    SampleSound();
    SampleCredited();
    SamplePinned();
    SampleUsable();
    var run, events := AcceptableIsAdmitted(SAMPLE, CONTROL, SERVED.selector, PASSWORD, 200);
  }
}
