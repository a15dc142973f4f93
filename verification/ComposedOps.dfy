/**
 The composed operations of the non-blocking service as a phase machine: an
 operation enters, is suspended in one library call at a time, and is resumed
 until it invokes its handler. The machine is proved to refine the blocking
 operations under every suspension schedule; the step-by-step classes of module
 ComposedHandlers are proved to implement it.
 */
module ComposedOps {
  import opened ErrorCodes
  import opened MysqlLibrary
  import opened ConnectionState

  /** One turn either invokes the handler or leaves the operation suspended in a call of some kind. */
  datatype Turn =
    | Invoke(out: Outcome)
    | Suspend(conn: Conn, phase: Kind, status: WaitStatus)
  {
    function Conn(): Conn {
      if Invoke? then out.conn else conn
    }
  }

  function Begin(c: Conn, op: Op, call: Call): Turn {
    Proceed(c, op, call.Kind(), Start(c.mysql, call))
  }

  function Proceed(c: Conn, op: Op, phase: Kind, p: Progress): Turn
    requires p.Finished? ==> Fits(phase, p.answer)
  {
    match p
    case Suspended(h, status) => Suspend(c.(mysql := h), phase, status)
    case Finished(a) => After(c.(mysql := a.handle), op, phase, a)
  }

  /** What follows a finished call: the result is stored after a successful query or move, if asked for. */
  function After(c: Conn, op: Op, phase: Kind, a: Answer): Turn
    requires Fits(phase, a) && c.mysql == a.handle
  {
    match phase
    case Storing => Invoke(Deliver(c, a))
    case Advancing => if ErrorOf(a).Failed() then Fail(c, ErrorOf(a)) else BeginStore(c)
    case Querying =>
      if !op.QueryResultOp? || ErrorOf(a).Failed() then Fail(c, ErrorOf(a))
      else BeginStore(c.(firstStored := true))
    case Connecting => Fail(c, ErrorOf(a))
  }

  /** Completes without a result set, with an error or with success. */
  function Fail(c: Conn, ec: ErrorCode): Turn {
    Invoke(Outcome(c, ec, EMPTY_SET))
  }

  function BeginStore(c: Conn): Turn {
    var c1 := FreeResult(c);
    match Start(c1.mysql, StoreCall)
    case Suspended(h, status) => Suspend(c1.(mysql := h), Storing, status)
    case Finished(a) => Invoke(Deliver(c1.(mysql := a.handle), a))
  }

  function Deliver(c: Conn, a: Answer): Outcome
    requires Fits(Storing, a) && c.mysql == a.handle
  {
    HandOut(c, a.slot.target, ErrorOf(a))
  }

  /** The end of an operation: without an error the stored result becomes the one owned and is handed out. */
  function HandOut(c: Conn, native: Option<nat>, ec: ErrorCode): Outcome
    requires !ec.Failed() && native.Some? ==> native.value < |c.mysql.results|
  {
    if ec.Failed() then Outcome(c, ec, EMPTY_SET)
    else
      var c1 := ResetLast(c, native);
      var put := Assign(c1.mysql, native, ec);
      Outcome(c1, put.ec, put.rs)
  }

  /** The first turn, on an open connection. */
  function Enter(c: Conn, op: Op): Turn {
    match op
    case ConnectOp(target, flags) => Begin(c.(flags := flags), op, ConnectCall(target, flags))
    case QueryOp(stmt) => Begin(FreeResult(c).(firstStored := false), op, QueryCall(stmt))
    case QueryResultOp(stmt) => Begin(FreeResult(c).(firstStored := false), op, QueryCall(stmt))
    case StoreOp =>
      if !c.firstStored then BeginStore(c.(firstStored := true))
      else
        var c1 := FreeResult(c);
        if HasMoreResults(c1) then Begin(c1, op, NextCall) else Fail(c1, NO_MORE_RESULTS)
  }

  /** A later turn: `token` is the operation's copy of the token, `ec` the result of its wait. */
  function Resume(c: Conn, op: Op, phase: Kind, token: nat, ec: ErrorCode): Turn {
    if token != c.token then Fail(c, OPERATION_ABORTED)
    else if ec.Failed() then Fail(c, ec)
    else Proceed(c, op, phase, Continue(c.mysql, phase))
  }

  /** A turn of an operation that has not entered yet (`at` is None) or is suspended in a call. */
  function Act(c: Conn, op: Op, at: Option<Kind>, token: nat, ec: ErrorCode): Turn {
    match at
    case Some(phase) => Resume(c, op, phase, token, ec)
    case None =>
      if token != c.token then Fail(c, OPERATION_ABORTED)
      else if ec.Failed() then Fail(c, ec)
      else Enter(c, op)
  }

  /** An operation that was cancelled, or whose wait failed, invokes its handler at once and does nothing else. */
  lemma {:induction false} FailedTurn(c: Conn, op: Op, at: Option<Kind>, token: nat, ec: ErrorCode)
    requires token != c.token || ec.Failed()
    ensures Act(c, op, at, token, ec)
            == Invoke(Outcome(c, if token != c.token then OPERATION_ABORTED else ec, EMPTY_SET))
  {
  }

  // Whole runs.

  /** A status for which a wait is registered; on any other one the operation is forgotten. */
  predicate Waitable(s: Status) {
    s.read || s.write || s.timeout
  }

  predicate AllWaitable(s: seq<WaitStatus>) {
    forall i | 0 <= i < |s| :: Waitable(s[i])
  }

  function Rank(phase: Kind): nat {
    if phase == Storing then 0 else 1
  }

  function Remaining(h: Handle): nat {
    match h.inflight
    case None => 0
    case Some(f) => |f.waits| + 1
  }

  datatype Run = Completed(out: Outcome, resumptions: nat) | Dropped

  /** Resumes an operation, whose waits all succeed, until it completes or no wait is registered for it. */
  function Drive(turn: Turn, op: Op): Run
    decreases if turn.Invoke? then 0 else Rank(turn.phase) + 1,
              if turn.Invoke? then 0 else Remaining(turn.conn.mysql)
  {
    match turn
    case Invoke(out) => Completed(out, 0)
    case Suspend(c, phase, status) =>
      if !Waitable(status) then Dropped
      else
        match Drive(Resume(c, op, phase, c.token, SUCCESS), op)
        case Completed(out, n) => Completed(out, n + 1)
        case Dropped => Dropped
  }

  // The schedule an operation will go through, told from the blocking calls alone.

  function StoreSchedule(c: Conn): seq<WaitStatus> {
    Suspensions(c.mysql, StoreCall)
  }

  function CallSchedule(c: Conn, call: Call, thenStore: bool): seq<WaitStatus> {
    var a := Block(c.mysql, call);
    Suspensions(c.mysql, call) +
    if thenStore && !ErrorOf(a).Failed() then StoreSchedule(c.(mysql := a.handle)) else []
  }

  function Schedule(c: Conn, op: Op): seq<WaitStatus> {
    match op
    case ConnectOp(target, flags) => CallSchedule(c, ConnectCall(target, flags), false)
    case QueryOp(stmt) => CallSchedule(FreeResult(c), QueryCall(stmt), false)
    case QueryResultOp(stmt) => CallSchedule(FreeResult(c), QueryCall(stmt), true)
    case StoreOp =>
      if !c.firstStored then StoreSchedule(c)
      else if HasMoreResults(FreeResult(c)) then CallSchedule(FreeResult(c), NextCall, true)
      else []
  }

  function Extend(run: Run, s: seq<WaitStatus>): Run {
    if !AllWaitable(s) || run.Dropped? then Dropped else run.(resumptions := run.resumptions + |s|)
  }

  lemma {:induction false} AllWaitableSplit(a: seq<WaitStatus>, b: seq<WaitStatus>)
    ensures AllWaitable(a + b) <==> AllWaitable(a) && AllWaitable(b)
  {
    if AllWaitable(a + b) {
      forall i | 0 <= i < |a| ensures Waitable(a[i]) { assert (a + b)[i] == a[i]; }
      forall i | 0 <= i < |b| ensures Waitable(b[i]) { assert (a + b)[|a| + i] == b[i]; }
    }
  }

  lemma {:induction false} ExtendTwice(run: Run, a: seq<WaitStatus>, b: seq<WaitStatus>)
    ensures Extend(Extend(run, b), a) == Extend(run, a + b)
  {
    AllWaitableSplit(a, b);
  }

  /** A started call runs to its blocking effect, one resumption per suspension. */
  lemma {:induction false} DriveFlight(c: Conn, op: Op, call: Call, n: nat, waits: seq<WaitStatus>, status: WaitStatus)
    requires c.mysql.inflight == Some(Flight(call, n, waits)) && c.mysql.errno == 0
    ensures var a := Perform(c.mysql.(inflight := None), call, n);
            Drive(Suspend(c, call.Kind(), status), op) ==
            Extend(Drive(After(c.(mysql := a.handle), op, call.Kind(), a), op), [status] + waits)
    decreases |waits|
  {
    hide After, Perform;
    var a := Perform(c.mysql.(inflight := None), call, n);
    var end := Drive(After(c.(mysql := a.handle), op, call.Kind(), a), op);
    var next := Resume(c, op, call.Kind(), c.token, SUCCESS);
    assert Drive(Suspend(c, call.Kind(), status), op) == Extend(Drive(next, op), [status]) by {
      assert AllWaitable([status]) == Waitable(status) by { assert [status][0] == status; }
    }
    ExtendTwice(end, [status], waits);
    if waits == [] {
      assert next == After(c.(mysql := a.handle), op, call.Kind(), a);
    } else {
      var c1 := c.(mysql := c.mysql.(errno := 0, inflight := Some(Flight(call, n, waits[1..]))));
      assert next == Suspend(c1, call.Kind(), waits[0]);
      DriveFlight(c1, op, call, n, waits[1..], waits[0]);
      assert [waits[0]] + waits[1..] == waits;
    }
  }

  /** Started or blocking, a call has the same effect, but for errno while it is suspended. */
  lemma {:induction false} StartedEffect(h: Handle, call: Call)
    requires Suspensions(h, call) != []
    ensures var waits, p := Suspensions(h, call), Start(h, call);
            && p == Suspended(p.handle, waits[0]) && p.handle.errno == 0
            && p.handle.inflight == Some(Flight(call, h.calls, waits[1..]))
            && Perform(p.handle.(inflight := None), call, h.calls) == Block(h, call)
  {
  }

  lemma {:induction false} DriveStarted(c: Conn, op: Op, call: Call, p: Progress, end: Run)
    requires Suspensions(c.mysql, call) != [] && p == Start(c.mysql, call)
    requires var a := Block(c.mysql, call); end == Drive(After(c.(mysql := a.handle), op, call.Kind(), a), op)
    ensures Drive(Proceed(c, op, call.Kind(), p), op) == Extend(end, Suspensions(c.mysql, call))
  {
    var waits := Suspensions(c.mysql, call);
    StartedEffect(c.mysql, call);
    DriveFlight(c.(mysql := p.handle), op, call, c.mysql.calls, waits[1..], waits[0]);
    assert [waits[0]] + waits[1..] == waits;
  }

  lemma {:induction false} DriveBegin(c: Conn, op: Op, call: Call)
    ensures var a := Block(c.mysql, call);
            Drive(Begin(c, op, call), op) ==
            Extend(Drive(After(c.(mysql := a.handle), op, call.Kind(), a), op), Suspensions(c.mysql, call))
  {
    var a := Block(c.mysql, call);
    if Suspensions(c.mysql, call) == [] {
      assert Begin(c, op, call) == After(c.(mysql := a.handle), op, call.Kind(), a);
    } else {
      DriveStarted(c, op, call, Start(c.mysql, call), Drive(After(c.(mysql := a.handle), op, call.Kind(), a), op));
    }
  }

  lemma {:induction false} DriveBeginStore(c: Conn, op: Op)
    requires c.last.None?
    ensures var o := StoreCurrent(c);
            Drive(BeginStore(c), op) == Extend(Completed(o, 0), StoreSchedule(c))
  {
    DriveBegin(c, op, StoreCall);
    assert Begin(c, op, StoreCall) == BeginStore(c);
  }

  /** An operation followed by storing the result. */
  lemma {:induction false} DriveThenStore(c: Conn, op: Op, call: Call, stored: Conn)
    requires c.last.None? && (call.NextCall? || (call.QueryCall? && op.QueryResultOp?))
    requires stored == c.(mysql := Block(c.mysql, call).handle, firstStored := true)
    requires call.NextCall? ==> c.firstStored
    ensures var a := Block(c.mysql, call);
            Drive(Begin(c, op, call), op) ==
            Extend(Completed(if ErrorOf(a).Failed() then Outcome(c.(mysql := a.handle), ErrorOf(a), EMPTY_SET)
                             else StoreCurrent(stored), 0),
                   CallSchedule(c, call, true))
  {
    var a := Block(c.mysql, call);
    var c1 := c.(mysql := a.handle);
    DriveBegin(c, op, call);
    if ErrorOf(a).Failed() {
      assert After(c1, op, call.Kind(), a) == Fail(c1, ErrorOf(a));
      assert CallSchedule(c, call, true) == Suspensions(c.mysql, call);
    } else {
      assert After(c1, op, call.Kind(), a) == BeginStore(stored);
      DriveBeginStore(stored, op);
      ExtendTwice(Completed(StoreCurrent(stored), 0), Suspensions(c.mysql, call), StoreSchedule(stored));
    }
  }

  /**
   Refinement: on an open connection every operation either completes with the
   outcome of its blocking form, after one resumption per suspension, or meets a
   status for which no wait is registered and never completes; the schedule
   decides which.
   */
  lemma {:induction false} RefinesBlocking(c: Conn, op: Op)
    requires c.initialized && CursorOk(c)
    ensures Drive(Enter(c, op), op) == Extend(Completed(Blocking(c, op), 0), Schedule(c, op))
  {
    var c1 := FreeResult(c);
    match op
    case ConnectOp(target, flags) =>
      DriveBegin(c.(flags := flags), op, ConnectCall(target, flags));
      assert Schedule(c, op) == Suspensions(c.mysql, ConnectCall(target, flags));
    case QueryOp(stmt) =>
      DriveBegin(c1.(firstStored := false), op, QueryCall(stmt));
      assert Schedule(c, op) == Suspensions(c1.mysql, QueryCall(stmt));
    case QueryResultOp(stmt) =>
      var c2 := c1.(firstStored := false);
      var stored := c2.(mysql := Block(c2.mysql, QueryCall(stmt)).handle, firstStored := true);
      DriveThenStore(c2, op, QueryCall(stmt), stored);
    case StoreOp =>
      if !c.firstStored {
        DriveBeginStore(c.(firstStored := true), op);
      } else if HasMoreResults(c1) {
        DriveThenStore(c1, op, NextCall, c1.(mysql := Block(c1.mysql, NextCall).handle));
      }
  }
}
