/**
 Lazy initialisation of the inbound stream racing with the first outbound write
 (internal/kuaifan/wifiin/lazy.go). Each function is one critical section or one
 call on the connection; writers, the initialising reader and a closing peer
 take turns in any order.
 */
module LazyInbound {
  import opened Foundations

  // Where the one initialisation stands.
  datatype Progress = Unstarted | AwaitingIv | Marked(clear: bool) | Initialised | Broken

  // sets counts successful changes to a bounded deadline.
  datatype Lazy = Lazy(progress: Progress, ivReady: bool, armed: bool, outboundStarted: bool,
                       deadline: Option<Time>, closed: bool, sets: nat)

  const CREATED := Lazy(Unstarted, false, false, false, None, false, 0)

  // How setting a deadline turns out; a closed connection reports that.
  datatype Setting = Applied | ClosedError | OtherFailure

  predicate Possible(s: Lazy, setting: Setting) {
    setting.Applied? ==> !s.closed
  }

  predicate Arms(s: Lazy) {
    !s.ivReady && !s.armed
  }

  // A writer about to write for the first time, or again.
  function Arm(s: Lazy, until: Time, setting: Setting): Lazy {
    var started := s.(outboundStarted := true);
    if !Arms(s) || !setting.Applied? then started
    else started.(armed := true, deadline := Some(until), sets := s.sets + 1)
  }

  function StartInit(s: Lazy): Lazy {
    if s.progress.Unstarted? then s.(progress := AwaitingIv) else s
  }

  function ReceiveIv(s: Lazy, usable: bool): Lazy {
    if !s.progress.AwaitingIv? then s
    else if !usable then s.(progress := Broken)
    else s.(ivReady := true, progress := Marked(s.armed))
  }

  function ClearDeadline(s: Lazy, setting: Setting): Lazy {
    if !s.progress.Marked? then s
    else if !s.progress.clear then s.(progress := Initialised)
    else
      match setting
      case Applied => s.(deadline := None, progress := Initialised)
      case ClosedError => s.(progress := Initialised)
      case OtherFailure => s.(progress := Broken)
  }

  // ---------- interleavings ----------

  datatype Move = ArmMove(until: Time,
                          setting: Setting) | StartMove | IvMove(usable: bool) | ClearMove(setting: Setting) | CloseMove

  predicate Moves(s: Lazy, move: Move, s': Lazy) {
    match move
    case ArmMove(until, setting) => Possible(s, setting) && s' == Arm(s, until, setting)
    case StartMove => s' == StartInit(s)
    case IvMove(usable) => s' == ReceiveIv(s, usable)
    case ClearMove(setting) => Possible(s, setting) && (setting.ClosedError? ==> s.closed)
        && s' == ClearDeadline(s, setting)
    case CloseMove => s' == s.(closed := true)
  }

  predicate IsRun(run: seq<Lazy>, moves: seq<Move>) {
    && |run| == |moves| + 1 && run[0] == CREATED
    && forall i | 0 <= i < |moves| :: Moves(run[i], moves[i], run[i + 1])
  }

  predicate Inv(s: Lazy) {
    && s.sets == (if s.armed then 1 else 0)
    && (s.armed ==> s.outboundStarted)
    && (s.deadline.Some? ==> s.armed)
    && (s.progress.Unstarted? || s.progress.AwaitingIv? ==> !s.ivReady)
    && (s.progress.Marked? || s.progress.Initialised? ==> s.ivReady)
    && (s.progress.Marked? ==> s.progress.clear == s.armed)
    && (s.progress.Initialised? && s.deadline.Some? ==> s.closed)
  }

  lemma {:induction false} InvThroughout(run: seq<Lazy>, moves: seq<Move>, i: nat)
    requires IsRun(run, moves) && i < |run|
    ensures Inv(run[i])
  {
    if i > 0 {
      InvThroughout(run, moves, i - 1);
      assert Moves(run[i - 1], moves[i - 1], run[i]);
    }
  }

  // In every interleaving the deadline is set at most once, only once a writer
  // has begun, and after a successful initialisation it is clear for good unless
  // the connection is closed.
  lemma DeadlineDiscipline(run: seq<Lazy>, moves: seq<Move>, i: nat, j: nat)
    requires IsRun(run, moves) && i <= j < |run|
    ensures run[j].sets <= 1
    ensures run[j].sets > 0 ==> run[j].outboundStarted
    ensures run[j].deadline.Some? ==> run[j].outboundStarted
    ensures run[i].progress.Initialised? ==> run[j].progress.Initialised? && (run[j].closed || run[j].deadline.None?)
  {
    InvThroughout(run, moves, j);
    if run[i].progress.Initialised? {
      InitialisedForGood(run, moves, i, j);
    }
  }

  lemma {:induction false} InitialisedForGood(run: seq<Lazy>, moves: seq<Move>, i: nat, j: nat)
    requires IsRun(run, moves) && i <= j < |run| && run[i].progress.Initialised?
    ensures run[j].progress.Initialised? && run[j].ivReady
  {
    if i < j {
      InitialisedForGood(run, moves, i, j - 1);
      assert Moves(run[j - 1], moves[j - 1], run[j]);
    } else {
      InvThroughout(run, moves, i);
    }
  }

  // A deadline appears only in the step of a writer, and that writer's write
  // comes next: before any writer there is none.
  lemma DeadlineOnlyByWriter(run: seq<Lazy>, moves: seq<Move>, i: nat)
    requires IsRun(run, moves) && i < |moves|
    requires run[i + 1].deadline.Some? && run[i + 1].deadline != run[i].deadline
    ensures moves[i].ArmMove? && moves[i].setting.Applied? && run[i + 1].deadline == Some(moves[i].until)
    ensures !run[i].ivReady && run[i].sets == 0
  {
    InvThroughout(run, moves, i);
    assert Moves(run[i], moves[i], run[i + 1]);
  }

  lemma {:induction false} QuietSoFar(run: seq<Lazy>, moves: seq<Move>, i: nat)
    requires IsRun(run, moves) && i < |run|
    requires forall j | 0 <= j < i ::
               !(moves[j].IvMove? && moves[j].usable) && !(moves[j].ArmMove? && moves[j].setting.Applied?)
    ensures !run[i].ivReady && !run[i].armed && run[i].sets == 0
  {
    if i > 0 {
      QuietSoFar(run, moves, i - 1);
      assert Moves(run[i - 1], moves[i - 1], run[i]);
    }
  }

  // The first writer whose setting goes through, while no IV has come, bounds the
  // wait for it; a later writer leaves that deadline alone.
  lemma FirstWriterArms(run: seq<Lazy>, moves: seq<Move>, i: nat)
    requires IsRun(run, moves) && i < |moves| && moves[i].ArmMove? && moves[i].setting.Applied?
    requires forall j | 0 <= j < i ::
               !(moves[j].IvMove? && moves[j].usable) && !(moves[j].ArmMove? && moves[j].setting.Applied?)
    ensures run[i + 1].deadline == Some(moves[i].until) && run[i + 1].sets == 1 && run[i + 1].outboundStarted
    ensures forall j | i < j < |moves| && moves[j].ArmMove? :: run[j + 1].deadline == run[j].deadline
  {
    QuietSoFar(run, moves, i);
    assert Moves(run[i], moves[i], run[i + 1]);
    forall j | i < j < |moves| && moves[j].ArmMove?
      ensures run[j + 1].deadline == run[j].deadline
    {
      SetsGrow(run, moves, i + 1, j);
      InvThroughout(run, moves, j);
      assert Moves(run[j], moves[j], run[j + 1]);
    }
  }

  lemma {:induction false} SetsGrow(run: seq<Lazy>, moves: seq<Move>, i: nat, j: nat)
    requires IsRun(run, moves) && i <= j < |run|
    ensures run[i].sets <= run[j].sets
  {
    if i < j {
      SetsGrow(run, moves, i, j - 1);
      assert Moves(run[j - 1], moves[j - 1], run[j]);
    }
  }

  // ---------- the program ----------

  class Connection {
    var deadline: Option<Time>
    var closed: bool
    ghost var sets: nat

    constructor ()
      ensures deadline.None? && !closed && sets == 0
    {
      deadline, closed, sets := None, false, 0;
    }

    // faulty stands for an operating system error on an open connection.
    method SetReadDeadline(until: Option<Time>, faulty: bool) returns (setting: Setting)
      modifies this
      ensures closed == old(closed) && setting == if closed then ClosedError else if faulty then OtherFailure
              else Applied
      ensures deadline == if setting.Applied? then until else old(deadline)
      ensures sets == if setting.Applied? && until.Some? then old(sets) + 1 else old(sets)
    {
      if closed {
        return ClosedError;
      }
      if faulty {
        return OtherFailure;
      }
      deadline := until;
      sets := if until.Some? then sets + 1 else sets;
      return Applied;
    }
  }

  class LazyInboundReader {
    const conn: Connection
    const timeout: nat
    var initStarted: bool
    var initFailed: bool
    var usable: bool
    var clear: bool
    var ivReady: bool
    var deadlineArmed: bool
    var outboundStarted: bool

    constructor (conn: Connection, timeout: nat)
      requires conn.deadline.None? && !conn.closed && conn.sets == 0
      ensures Valid() && this.conn == conn && this.timeout == timeout && View() == CREATED
    {
      this.conn, this.timeout := conn, timeout;
      initStarted, initFailed, usable, clear, ivReady, deadlineArmed, outboundStarted := false, false, false, false,
          false, false, false;
    }

    ghost predicate Valid()
      reads this
    {
      !initStarted ==> !initFailed && !usable && !ivReady
    }

    ghost function View(): Lazy
      reads this, conn
    {
      Lazy(if !initStarted then Unstarted else if initFailed then Broken else if usable then Initialised
           else if ivReady then Marked(clear) else AwaitingIv,
           ivReady, deadlineArmed, outboundStarted, conn.deadline, conn.closed, conn.sets)
    }

    method ArmForOutbound(now: Time, faulty: bool) returns (ok: bool, ghost setting: Setting)
      requires Valid()
      modifies this, conn
      ensures Valid()
      ensures Possible(old(View()), setting) && View() == Arm(old(View()), now + timeout, setting)
      ensures ok == (!Arms(old(View())) || setting.Applied?)
    {
      outboundStarted := true;
      setting := OtherFailure;
      if ivReady || deadlineArmed {
        return true, setting;
      }
      var outcome := conn.SetReadDeadline(Some(now + timeout), faulty);
      setting := outcome;
      if outcome.Applied? {
        deadlineArmed := true;
      }
      ok := outcome.Applied?;
    }

    // The three parts of the initialisation; the lock around all of them keeps
    // other readers out, not writers.
    method BeginInitialize() returns (first: bool)
      requires Valid()
      modifies this
      ensures Valid()
      ensures first == old(View()).progress.Unstarted? && View() == StartInit(old(View()))
    {
      first := !initStarted;
      if first {
        initStarted := true;
      }
    }

    method AcceptIv(accepted: bool)
      requires Valid() && View().progress.AwaitingIv?
      modifies this
      ensures Valid()
      ensures View() == ReceiveIv(old(View()), accepted)
    {
      if !accepted {
        initFailed := true;
        return;
      }
      ivReady := true;
      clear := deadlineArmed;
    }

    method FinishInitialize(faulty: bool) returns (ok: bool, ghost setting: Setting)
      requires Valid() && View().progress.Marked?
      modifies this, conn
      ensures Valid()
      ensures Possible(old(View()), setting) && (setting.ClosedError? ==> old(conn.closed))
              && View() == ClearDeadline(old(View()), setting)
      ensures ok == View().progress.Initialised?
    {
      setting := OtherFailure;
      if clear {
        var outcome := conn.SetReadDeadline(None, faulty);
        setting := outcome;
        if outcome.OtherFailure? {
          initFailed := true;
          return false, setting;
        }
      }
      usable := true;
      ok := true;
    }
  }
}
