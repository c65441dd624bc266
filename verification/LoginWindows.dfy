/**
 The failure window of one browser session (internal/web/security.go): how an
 attempt record moves, and what that bounds over any run of logins.
 */
module LoginWindows {
  import opened Foundations

  const MAX_FAILURES: nat := 5

  datatype Attempt = Attempt(failures: nat, windowEnd: Time, inFlight: bool)

  const NO_ATTEMPT := Attempt(0, UNSET, false)

  datatype Admission = Admitted | Busy | RateLimited(wait: int) | SessionInactive

  predicate WindowOver(a: Attempt, now: Time) {
    a.windowEnd != UNSET && a.windowEnd <= now
  }

  // The record as a new login finds it.
  function Opened(a: Attempt, now: Time): Attempt {
    if WindowOver(a, now) then NO_ATTEMPT else a
  }

  function Admit(a: Attempt, now: Time): Admission {
    if a.inFlight then Busy
    else if Opened(a, now).failures >= MAX_FAILURES then RateLimited(Opened(a, now).windowEnd - now)
    else Admitted
  }

  function Begun(a: Attempt, now: Time): Attempt {
    Opened(a, now).(inFlight := true)
  }

  function Unsuccessful(a: Attempt, now: Time, counted: bool): Attempt {
    var open := if WindowOver(a, now) then a.(failures := 0, windowEnd := UNSET) else a;
    if !counted then open.(inFlight := false)
    else Attempt(if open.failures < MAX_FAILURES then open.failures + 1 else open.failures,
                 if open.windowEnd == UNSET then now + MINUTE else open.windowEnd, false)
  }

  // ---------- counted failures over time ----------

  // In order of time, and ten in a row take at least a minute from the first to
  // the last.
  predicate Spaced(h: seq<Time>) {
    var n := |h|;
    h == [] || (Spaced(h[..n - 1]) && (n >= 2 ==> h[n - 2] <= h[n - 1]) && (n >= 10 ==> h[n - 10] + MINUTE <= h[n - 1]))
  }

  lemma {:induction false} InOrder(h: seq<Time>, i: nat, j: nat)
    requires Spaced(h) && i <= j < |h|
    ensures h[i] <= h[j]
  {
    var front := h[..|h| - 1];
    if j < |h| - 1 {
      InOrder(front, i, j);
      assert front[i] == h[i] && front[j] == h[j];
    } else if i < j {
      InOrder(front, i, j - 1);
      assert front[i] == h[i] && front[j - 1] == h[j - 1];
    }
  }

  lemma {:induction false} TenApart(h: seq<Time>, j: nat)
    requires Spaced(h) && 9 <= j < |h|
    ensures h[j - 9] + MINUTE <= h[j]
  {
    if j < |h| - 1 {
      TenApart(h[..|h| - 1], j);
    }
  }

  // No window is open: the fifth last failure is a minute back.
  predicate Rested(h: seq<Time>, clock: Time) {
    |h| >= 5 ==> h[|h| - 5] + MINUTE <= clock
  }

  // The record and the counted failures since the last success fit together.
  predicate Tracks(a: Attempt, h: seq<Time>, clock: Time) {
    && Spaced(h) && (h != [] ==> h[|h| - 1] <= clock)
    && (a.inFlight ==> a.failures < MAX_FAILURES)
    && if a.windowEnd == UNSET then a.failures == 0 && Rested(h, clock)
       else
         && 1 <= a.failures <= MAX_FAILURES && a.failures <= |h|
         && var first := |h| - a.failures;
         a.windowEnd == h[first] + MINUTE && (first >= 5 ==> h[first - 5] + MINUTE <= h[first])
  }

  lemma TracksLater(a: Attempt, h: seq<Time>, clock: Time, now: Time)
    requires Tracks(a, h, clock) && clock <= now
    ensures Tracks(a, h, now)
  {
  }

  // A window that is over leaves a rested record.
  lemma OverIsRested(a: Attempt, h: seq<Time>, now: Time)
    requires Tracks(a, h, now) && WindowOver(a, now)
    ensures Rested(h, now) && Tracks(NO_ATTEMPT, h, now)
  {
    if |h| >= 5 {
      InOrder(h, |h| - 5, |h| - a.failures);
    }
  }

  lemma BeginTracks(a: Attempt, h: seq<Time>, now: Time)
    requires Tracks(a, h, now) && Admit(a, now) == Admitted
    ensures Tracks(Begun(a, now), h, now)
  {
    if WindowOver(a, now) {
      OverIsRested(a, h, now);
    }
  }

  lemma FailureTracks(a: Attempt, h: seq<Time>, now: Time, counted: bool)
    requires Tracks(a, h, now) && a.inFlight
    ensures Tracks(Unsuccessful(a, now, counted), if counted then h + [now] else h, now)
  {
    if WindowOver(a, now) {
      OverIsRested(a, h, now);
    }
    if counted {
      var open := if WindowOver(a, now) then a.(failures := 0, windowEnd := UNSET) else a;
      if |h| >= 9 {
        if open.windowEnd == UNSET {
          InOrder(h, |h| - 9, |h| - 5);
        } else {
          var first := |h| - open.failures;
          InOrder(h, |h| - 9, first - 5);
          InOrder(h, first, |h| - 1);
        }
      }
      assert (h + [now])[..|h|] == h;
    }
  }

  // ---------- the bound ----------

  // No half-open minute holds more than nine of them.
  lemma AtMostNinePerMinute(h: seq<Time>, from: Time, i: nat, j: nat)
    requires Spaced(h) && i <= j < |h|
    requires from <= h[i] && h[j] < from + MINUTE
    ensures j - i + 1 <= 9
  {
    if i + 9 <= j {
      TenApart(h, j);
      InOrder(h, i, j - 9);
    }
  }

  // One more login that fails and counts, beginning and ending at a time.
  function FailAt(a: Attempt, now: Time): Option<Attempt> {
    if Admit(a, now) != Admitted then None else Some(Unsuccessful(Begun(a, now), now, true))
  }

  function FailAll(a: Attempt, times: seq<Time>): Option<Attempt>
    decreases |times|
  {
    if times == [] then Some(a)
    else if FailAt(a, times[0]).None? then None
    else FailAll(FailAt(a, times[0]).value, times[1..])
  }

  lemma FailsOn(a: Attempt, now: Time, rest: seq<Time>, next: Attempt)
    requires FailAt(a, now) == Some(next)
    ensures FailAll(a, [now] + rest) == FailAll(next, rest)
  {
    assert ([now] + rest)[1..] == rest;
  }

  // Five failures that fill a window opened by the first of them.
  lemma FiveFail(a: Attempt, opening: Time, later: Time, rest: seq<Time>)
    requires FailAt(a, opening) == Some(Attempt(1, opening + MINUTE, false)) && opening <= later < opening + MINUTE
    ensures FailAll(a, [opening, later, later, later, later] + rest) == FailAll(Attempt(5, opening + MINUTE, false),
            rest)
  {
    var w := opening + MINUTE;
    var all := [opening, later, later, later, later] + rest;
    FailsOn(a, opening, all[1..], Attempt(1, w, false));
    FailsOn(Attempt(1, w, false), later, all[2..], Attempt(2, w, false));
    FailsOn(Attempt(2, w, false), later, all[3..], Attempt(3, w, false));
    FailsOn(Attempt(3, w, false), later, all[4..], Attempt(4, w, false));
    FailsOn(Attempt(4, w, false), later, all[5..], Attempt(5, w, false));
    assert all == [opening] + all[1..] && all[1..] == [later] + all[2..] && all[2..] == [later] + all[3..];
    assert all[3..] == [later] + all[4..] && all[4..] == [later] + all[5..] && all[5..] == rest;
  }

  // Nine is reached: one failure, four at the end of its window and five right
  // after it are all admitted and counted, the last nine of them within a
  // minute; an eleventh login then is refused.
  lemma NineIsReached(t: Time)
    requires t != UNSET
    ensures var late, next := t + MINUTE - 1, t + MINUTE;
            var times := [t, late, late, late, late] + [next, next, next, next, next];
            && FailAll(NO_ATTEMPT, times).Some? && FailAll(NO_ATTEMPT, times + [next]).None?
            && late <= times[1] && times[9] < late + MINUTE
  {
    var late, next := t + MINUTE - 1, t + MINUTE;
    var second := [next, next, next, next, next];
    var full := Attempt(5, next, false);
    FiveFail(NO_ATTEMPT, t, late, second);
    FiveFail(full, next, next, []);
    assert second + [] == second;
    FiveFail(NO_ATTEMPT, t, late, second + [next]);
    FiveFail(full, next, next, [next]);
    assert [t, late, late, late, late] + second + [next] == [t, late, late, late, late] + (second + [next]);
    assert FailAt(Attempt(5, next + MINUTE, false), next).None?;
  }
}
