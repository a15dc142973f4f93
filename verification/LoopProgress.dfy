/**
 Progress: firing a wait or running a completion always brings the event loop
 closer to the state where nothing is pending, however operations, cancellations
 and aborted waits interfered before; there, every handler has run exactly once.
 */
module LoopProgress {
  import opened ErrorCodes
  import opened MysqlLibrary
  import opened ConnectionState
  import opened ComposedOps
  import opened Reactors
  import opened EventLoop
  import opened LoopSafety

  predicate Idle(l: Loop) {
    l.ready == [] && forall k | 0 <= k < |l.reactors| :: Waits(l.reactors[k]) == []
  }

  /** An enabled step of the loop itself. */
  predicate Progressing(l: Loop, s: Step) {
    match s
    case Fire(k, i, _) => k < |l.reactors| && i < |Waits(l.reactors[k])|
    case Dispatch(i) => i < |l.ready|
    case _ => false
  }

  const CALLS: Weight := (_, calls) => calls
  const EACH: Weight := (_, _) => 1

  /** Library calls the pending operations can still go through. */
  function CallsLeft(l: Loop): nat {
    Pending(l, CALLS)
  }

  /** Suspensions the calls in flight can still go through. */
  function SuspensionsLeft(conns: seq<Conn>): nat {
    if conns == [] then 0 else Remaining(conns[0].mysql) + SuspensionsLeft(conns[1..])
  }

  function WaitsLeft(l: Loop): nat {
    WaitSum(l.reactors, EACH)
  }

  predicate Closer(l': Loop, l: Loop) {
    || CallsLeft(l') < CallsLeft(l)
    || (CallsLeft(l') == CallsLeft(l) && SuspensionsLeft(l'.conns) < SuspensionsLeft(l.conns))
    || (CallsLeft(l') == CallsLeft(l) && SuspensionsLeft(l'.conns) == SuspensionsLeft(l.conns)
        && WaitsLeft(l') < WaitsLeft(l))
  }

  lemma {:induction false} SuspensionsUpdate(conns: seq<Conn>, k: nat, c: Conn)
    requires k < |conns|
    ensures SuspensionsLeft(conns[k := c]) + Remaining(conns[k].mysql) == SuspensionsLeft(conns) + Remaining(c.mysql)
  {
    if k == 0 {
      assert conns[k := c][1..] == conns[1..];
    } else {
      assert conns[k := c][1..] == conns[1..][k - 1 := c];
      SuspensionsUpdate(conns[1..], k - 1, c);
    }
  }

  /** A suspended operation uses up a suspension of its call, or has moved on to its last call. */
  lemma {:induction false} ResumeProgress(c: Conn, op: Op, phase: Kind, token: nat, ec: ErrorCode)
    ensures var turn := Resume(c, op, phase, token, ec);
            turn.Suspend? ==>
              || Rank(turn.phase) < Rank(phase)
              || (turn.phase == phase && Remaining(turn.conn.mysql) < Remaining(c.mysql))
  {
  }

  lemma {:induction false} DispatchCloser(l: Loop, i: nat)
    requires LoopOk(l) && i < |l.ready|
    ensures Closer(DispatchReady(l, i), l)
  {
    var l1 := l.(ready := Remove(l.ready, i));
    ReadyRemove(l.ready, i, CALLS);
    if l.ready[i].Resumption? {
      var t := l.ready[i].task;
      assert TaskOk(l, t);
      var turn := Resume(l.conns[t.conn], t.op, t.phase, t.token, l.ready[i].ec);
      ResumeProgress(l.conns[t.conn], t.op, t.phase, t.token, l.ready[i].ec);
      PlaceSum(l1, t.conn, t.id, t.op, t.token, turn, CALLS);
      SuspensionsUpdate(l.conns, t.conn, turn.Conn());
    }
  }

  lemma {:induction false} FireCloser(l: Loop, k: nat, i: nat, ec: ErrorCode)
    requires LoopOk(l) && k < |l.reactors| && i < |Waits(l.reactors[k])|
    ensures Closer(Apply(l, Fire(k, i, ec)), l)
  {
    FireSum(l, k, i, ec, CALLS);
    OnlyWait(l.reactors[k], i);
    WaitUpdate(l.reactors, k, RemoveWait(l.reactors[k], i), EACH);
  }

  lemma {:induction false} StepCloser(l: Loop, s: Step)
    requires LoopOk(l) && Progressing(l, s)
    ensures Closer(Apply(l, s), l) && LoopOk(Apply(l, s)) && Apply(l, s).next == l.next
  {
    StepOk(l, s);
    match s
    case Fire(k, i, ec) => FireCloser(l, k, i, ec);
    case Dispatch(i) => DispatchCloser(l, i);
  }

  /** A scheduler that picks an enabled step as long as anything is pending, with any result for a wait. */
  ghost predicate Scheduler(pick: Loop -> Step) {
    forall l: Loop :: !Idle(l) ==> Progressing(l, pick(l))
  }

  /** Runs the loop until nothing is pending; that it is a function says that it always gets there. */
  ghost function Drain(l: Loop, pick: Loop -> Step): (end: Loop)
    requires LoopOk(l) && Scheduler(pick)
    ensures LoopOk(end) && Idle(end) && end.next == l.next
    decreases CallsLeft(l), SuspensionsLeft(l.conns), WaitsLeft(l)
  {
    if Idle(l) then l
    else
      StepCloser(l, pick(l));
      Drain(Apply(l, pick(l)), pick)
  }

  lemma {:induction false} NothingWaits(reactors: seq<Reactor>, f: Weight)
    requires forall k | 0 <= k < |reactors| :: Waits(reactors[k]) == []
    ensures WaitSum(reactors, f) == 0
  {
    if reactors != [] { NothingWaits(reactors[1..], f); }
  }

  /** Whatever was pending, once the loop is drained each handler ran exactly once, or its operation was lost. */
  lemma {:induction false} DrainedOnce(l: Loop, pick: Loop -> Step, id: nat)
    requires LoopOk(l) && Scheduler(pick) && id < l.next
    ensures var end := Drain(l, pick); DoneCount(end.done, id) + LostCount(end.lost, id) == 1
  {
    var end := Drain(l, pick);
    NothingWaits(end.reactors, One(id));
    assert Once(end, id);
  }

  // Operations are lost only for a status that asks for nothing but an exceptional condition.

  ghost predicate Listens(server: Server) {
    forall n: nat, call: Call :: AllWaitable(server.waits(n, call))
  }

  ghost predicate Attentive(h: Handle) {
    Listens(h.server) && (h.inflight.Some? ==> AllWaitable(h.inflight.value.waits))
  }

  ghost predicate Attending(turn: Turn) {
    Attentive(turn.Conn().mysql) && (turn.Suspend? ==> Waitable(turn.status))
  }

  lemma {:induction false} StartAttentive(h: Handle, call: Call)
    requires Listens(h.server)
    ensures match Start(h, call)
            case Suspended(h', s) => Waitable(s) && Attentive(h')
            case Finished(a) => a.handle.inflight.None? && a.handle.server == h.server
  {
  }

  lemma {:induction false} BeginStoreAttentive(c: Conn)
    requires Listens(c.mysql.server)
    ensures Attending(BeginStore(c))
  {
  }

  lemma {:induction false} AfterAttentive(c: Conn, op: Op, phase: Kind, a: Answer)
    requires Fits(phase, a) && c.mysql == a.handle && Attentive(c.mysql)
    ensures Attending(After(c, op, phase, a))
  {
    BeginStoreAttentive(c);
    BeginStoreAttentive(c.(firstStored := true));
  }

  lemma {:induction false} BeginAttentive(c: Conn, op: Op, call: Call)
    requires Listens(c.mysql.server)
    ensures Attending(Begin(c, op, call))
  {
    StartAttentive(c.mysql, call);
    match Start(c.mysql, call)
    case Suspended(_, _) =>
    case Finished(a) => AfterAttentive(c.(mysql := a.handle), op, call.Kind(), a);
  }

  lemma {:induction false} EnterAttentive(c: Conn, op: Op)
    requires Attentive(c.mysql)
    ensures Attending(Enter(c, op))
  {
    var c1 := FreeResult(c);
    match op
    case ConnectOp(target, flags) => BeginAttentive(c.(flags := flags), op, ConnectCall(target, flags));
    case QueryOp(stmt) => BeginAttentive(c1.(firstStored := false), op, QueryCall(stmt));
    case QueryResultOp(stmt) => BeginAttentive(c1.(firstStored := false), op, QueryCall(stmt));
    case StoreOp =>
      BeginStoreAttentive(c.(firstStored := true));
      BeginAttentive(c1, op, NextCall);
  }

  lemma {:induction false} ContinueAttentive(h: Handle, kind: Kind)
    requires Attentive(h)
    ensures match Continue(h, kind)
            case Suspended(h', s) => Waitable(s) && Attentive(h')
            case Finished(a) => Attentive(a.handle)
  {
  }

  lemma {:induction false} ResumeAttentive(c: Conn, op: Op, phase: Kind, token: nat, ec: ErrorCode)
    requires Attentive(c.mysql)
    ensures Attending(Resume(c, op, phase, token, ec))
  {
    ContinueAttentive(c.mysql, phase);
    var p := Continue(c.mysql, phase);
    if p.Finished? { AfterAttentive(c.(mysql := p.answer.handle), op, phase, p.answer); }
  }

  lemma {:induction false} BlockAttentive(h: Handle, call: Call)
    requires Listens(h.server)
    ensures Attentive(Block(h, call).handle)
  {
  }

  lemma {:induction false} StoreResultAttentive(c: Conn, ec: ErrorCode)
    requires Attentive(c.mysql)
    ensures Attentive(StoreResult(c, ec).conn.mysql)
  {
    var c1 := FreeResult(c);
    BlockAttentive(c.mysql, StoreCall);
    BlockAttentive(c1.mysql, NextCall);
    BlockAttentive(Block(c1.mysql, NextCall).handle, StoreCall);
  }

  lemma {:induction false} QueryAttentive(c: Conn, stmt: string)
    requires Attentive(c.mysql)
    ensures Attentive(Query(c, stmt).conn.mysql)
  {
  }

  lemma {:induction false} BlockingAttentive(c: Conn, op: Op)
    requires Attentive(c.mysql)
    ensures Attentive(Blocking(c, op).conn.mysql)
  {
    match op
    case ConnectOp(target, flags) => BlockAttentive(Open(c).conn.mysql, ConnectCall(target, flags));
    case QueryOp(stmt) => QueryAttentive(c, stmt);
    case StoreOp => StoreResultAttentive(c, SUCCESS);
    case QueryResultOp(stmt) =>
      QueryAttentive(c, stmt);
      StoreResultAttentive(Query(c, stmt).conn, Query(c, stmt).ec);
  }

  ghost predicate Serving(l: Loop) {
    l.lost == [] && forall k | 0 <= k < |l.conns| :: Attentive(l.conns[k].mysql)
  }

  lemma {:induction false} PlaceServing(l: Loop, k: nat, id: nat, op: Op, token: nat, turn: Turn)
    requires k < |l.conns| == |l.reactors| && Serving(l) && Attending(turn)
    ensures Serving(Place(l, k, id, op, token, turn))
  {
  }

  lemma {:induction false} EnteredServing(l: Loop, k: nat, op: Op, c: Conn, ec: ErrorCode, turn: Turn)
    requires k < |l.conns| == |l.reactors| && Serving(l) && Attentive(c.mysql) && Attending(turn)
    ensures Serving(Entered(l, k, op, c, ec, turn))
  {
  }

  lemma {:induction false} StepServing(l: Loop, s: Step)
    requires LoopOk(l) && Serving(l)
    ensures Serving(Apply(l, s))
  {
    match s
    case Issue(k, op) =>
      if k < |l.conns| {
        var c := Prepared(l.conns[k], op).conn;
        EnterAttentive(c, op);
        EnteredServing(l, k, op, c, Prepared(l.conns[k], op).ec, Enter(c, op));
      }
    case Dispatch(i) =>
      if i < |l.ready| && l.ready[i].Resumption? {
        var t := l.ready[i].task;
        assert TaskOk(l, t);
        ResumeAttentive(l.conns[t.conn], t.op, t.phase, t.token, l.ready[i].ec);
        PlaceServing(l.(ready := Remove(l.ready, i)), t.conn, t.id, t.op, t.token,
                     Resume(l.conns[t.conn], t.op, t.phase, t.token, l.ready[i].ec));
      }
    case CallBlocking(k, op) => if k < |l.conns| { BlockingAttentive(l.conns[k], op); }
    case Fire(_, _, _) =>
    case CancelAll(_) =>
    case CloseConn(_) =>
  }

  lemma {:induction false} RunServing(l: Loop, steps: seq<Step>)
    requires LoopOk(l) && Serving(l)
    ensures Serving(Exec(l, steps)) && LoopOk(Exec(l, steps))
    decreases |steps|
  {
    if steps != [] {
      StepOk(l, steps[0]);
      StepServing(l, steps[0]);
      RunServing(Apply(l, steps[0]), steps[1..]);
    }
  }

  lemma {:induction false} DrainServing(l: Loop, pick: Loop -> Step)
    requires LoopOk(l) && Serving(l) && Scheduler(pick)
    ensures Serving(Drain(l, pick))
    decreases CallsLeft(l), SuspensionsLeft(l.conns), WaitsLeft(l)
  {
    if !Idle(l) {
      StepCloser(l, pick(l));
      StepServing(l, pick(l));
      DrainServing(Apply(l, pick(l)), pick);
    }
  }

  /**
   Exactly once: with a library that only ever waits for reads, writes and
   timeouts, after any run, however it interleaved operations, failing waits,
   cancellation and closing, draining the loop leaves every operation's handler
   run exactly once.
   */
  lemma {:induction false} ExactlyOnce(servers: seq<Server>, steps: seq<Step>, pick: Loop -> Step, id: nat)
    requires forall k | 0 <= k < |servers| :: Listens(servers[k])
    requires Scheduler(pick)
    ensures LoopOk(Exec(Initial(servers), steps))
    ensures DoneCount(Drain(Exec(Initial(servers), steps), pick).done, id)
            == if id < Exec(Initial(servers), steps).next then 1 else 0
  {
    InitialOk(servers);
    RunServing(Initial(servers), steps);
    var l := Exec(Initial(servers), steps);
    var end := Drain(l, pick);
    DrainServing(l, pick);
    NothingWaits(end.reactors, One(id));
    assert Once(end, id);
  }

  /** And a status that asks for an exceptional condition only does lose the operation: its handler never runs. */
  lemma {:induction false} LostForExcept(c: Conn)
    requires c.initialized && c.mysql.server.waits(c.mysql.calls, QueryCall("")) == [EXCEPT] && c.last.None?
    ensures var l := Apply(Loop([c], [IDLE], [], [], [], 0), Issue(0, QueryOp("")));
            Idle(l) && l.done == [] && l.lost == [0]
  {
  }
}
