/**
 Cancellation is an epoch: operations issued before a cancel or close abort
 without touching anything, at whatever later moment they are resumed, and an
 operation issued afterwards delivers exactly what its blocking form would, even
 while the aborted ones and the operations of other connections are still around.
 */
module LoopIsolation {
  import opened ErrorCodes
  import opened MysqlLibrary
  import opened ConnectionState
  import opened ComposedOps
  import opened Ownership
  import opened Reactors
  import opened EventLoop
  import opened LoopSafety

  predicate Stale(l: Loop, t: Task) {
    t.conn < |l.conns| && t.token < l.conns[t.conn].token
  }

  /** Pending operations of connection `k` that were issued as one of the first `n` have been cancelled. */
  ghost predicate OldStale(l: Loop, k: nat, n: nat) {
    && k < |l.conns| == |l.reactors|
    && (forall i | 0 <= i < |Waits(l.reactors[k])| && Waits(l.reactors[k])[i].id < n ::
          Stale(l, Waits(l.reactors[k])[i]))
    && (forall i |
          0 <= i < |l.ready| && l.ready[i].Resumption? && l.ready[i].task.conn == k && l.ready[i].task.id < n ::
          Stale(l, l.ready[i].task))
  }

  /** The waits registered for connection `k` are its own. */
  predicate Homed(r: Reactor, k: nat) {
    forall i | 0 <= i < |Waits(r)| :: Waits(r)[i].conn == k
  }

  lemma {:induction false} SuspendOldStale(
      l: Loop, k: nat, n: nat, k': nat, c: Conn, task: Task, reg: Registration, lost: seq<nat>)
    requires OldStale(l, k, n) && k' < |l.conns| && Homed(l.reactors[k'], k') && c.token == l.conns[k'].token
    requires reg.aborted == Waits(l.reactors[k']) && (k' == k ==> task.id >= n)
    requires forall i | 0 <= i < |Waits(reg.reactor)| :: Waits(reg.reactor)[i] == task
    ensures OldStale(l.(conns := l.conns[k' := c], reactors := l.reactors[k' := reg.reactor],
                        ready := l.ready + Aborted(reg.aborted), lost := lost), k, n)
  {
  }

  /** A turn on any connection, by an operation that is not an old one of connection `k` unless it has expired. */
  lemma {:induction false} PlaceOldStale(l: Loop, k: nat, n: nat, k': nat, id: nat, op: Op, token: nat, turn: Turn)
    requires OldStale(l, k, n) && k' < |l.conns| && Homed(l.reactors[k'], k')
    requires turn.Conn().token == l.conns[k'].token && (k' == k && turn.Suspend? ==> id >= n)
    ensures OldStale(Place(l, k', id, op, token, turn), k, n)
  {
    if turn.Suspend? {
      var task := Task(id, k', token, op, turn.phase, FINISH);
      var reg := Register(l.reactors[k'], turn.conn.mysql.server.socket(turn.conn.mysql.calls), turn.status, task);
      SuspendOldStale(l, k, n, k', turn.conn, Waiting(task, turn.status), reg, l.lost + if reg.lost then [id] else []);
    }
  }

  lemma {:induction false} IssueOldStale(l: Loop, k: nat, n: nat, k': nat, op: Op)
    requires LoopOk(l) && OldStale(l, k, n) && n <= l.next && k' < |l.conns|
    ensures OldStale(IssueOp(l, k', op), k, n)
  {
    var c := Prepared(l.conns[k'], op).conn;
    PreparedSound(l.conns[k'], op);
    EnterToken(c, op);
    EnteredOldStale(l, k, n, k', op, c, Prepared(l.conns[k'], op).ec, Enter(c, op));
  }

  lemma {:induction false} PostOrPlaceOldStale(
      l: Loop, k: nat, n: nat, k': nat, id: nat, op: Op, token: nat, ec: ErrorCode, turn: Turn)
    requires OldStale(l, k, n) && n <= id && k' < |l.conns| && Homed(l.reactors[k'], k')
    requires turn.Conn().token == l.conns[k'].token
    ensures OldStale(PostOrPlace(l, k', id, op, token, ec, turn), k, n)
  {
    if ec.Failed() { PostOldStale(l, k, n, id, ec); } else { PlaceOldStale(l, k, n, k', id, op, token, turn); }
  }

  lemma {:induction false} EnteredOldStale(l: Loop, k: nat, n: nat, k': nat, op: Op, c: Conn, ec: ErrorCode, turn: Turn)
    requires OldStale(l, k, n) && n <= l.next && k' < |l.conns| && Homed(l.reactors[k'], k')
    requires c.token == l.conns[k'].token && turn.Conn().token == c.token
    ensures OldStale(Entered(l, k', op, c, ec, turn), k, n)
  {
    var l1 := l.(conns := l.conns[k' := c], next := l.next + 1);
    UpdateOldStale(l, k, n, k', c, l.next + 1);
    PostOrPlaceOldStale(l1, k, n, k', l.next, op, c.token, ec, turn);
    assert Entered(l, k', op, c, ec, turn) == PostOrPlace(l1, k', l.next, op, c.token, ec, turn);
  }

  lemma {:induction false} UpdateOldStale(l: Loop, k: nat, n: nat, k': nat, c: Conn, next: nat)
    requires OldStale(l, k, n) && k' < |l.conns| && c.token >= l.conns[k'].token
    ensures OldStale(l.(conns := l.conns[k' := c], next := next), k, n)
  {
  }

  lemma {:induction false} PostOldStale(l: Loop, k: nat, n: nat, id: nat, ec: ErrorCode)
    requires OldStale(l, k, n)
    ensures OldStale(Post(l, id, ec), k, n)
  {
  }

  lemma {:induction false} FireOldStale(l: Loop, k: nat, n: nat, k': nat, i: nat, ec: ErrorCode)
    requires LoopOk(l) && OldStale(l, k, n) && k' < |l.conns| && i < |Waits(l.reactors[k'])|
    ensures OldStale(Apply(l, Fire(k', i, ec)), k, n)
  {
    OnlyWait(l.reactors[k'], i);
  }

  lemma {:induction false} CloseOldStale(l: Loop, k: nat, n: nat, k': nat)
    requires LoopOk(l) && OldStale(l, k, n) && k' < |l.conns| && l.conns[k'].initialized
    ensures OldStale(Apply(l, CloseConn(k')), k, n)
  {
    assert forall i | 0 <= i < |Aborted(Waits(l.reactors[k']))| ::
        Aborted(Waits(l.reactors[k']))[i].task in Waits(l.reactors[k']);
  }

  lemma {:induction false} DispatchOldStale(l: Loop, k: nat, n: nat, i: nat)
    requires LoopOk(l) && OldStale(l, k, n) && i < |l.ready|
    ensures OldStale(DispatchReady(l, i), k, n)
  {
    var l1 := l.(ready := Remove(l.ready, i));
    assert Shape(l1) && OldStale(l1, k, n);
    if l.ready[i].Resumption? {
      var t := l.ready[i].task;
      assert TaskOk(l, t);
      ResumeToken(l.conns[t.conn], t.op, t.phase, t.token, l.ready[i].ec);
      PlaceOldStale(l1, k, n, t.conn, t.id, t.op, t.token,
                    Resume(l.conns[t.conn], t.op, t.phase, t.token, l.ready[i].ec));
    }
  }

  lemma {:induction false} StepOldStale(l: Loop, k: nat, n: nat, s: Step)
    requires LoopOk(l) && OldStale(l, k, n) && n <= l.next
    ensures OldStale(Apply(l, s), k, n) && n <= Apply(l, s).next
  {
    match s
    case Issue(k', op) => if k' < |l.conns| { IssueOldStale(l, k, n, k', op); }
    case Dispatch(i) => if i < |l.ready| { DispatchOldStale(l, k, n, i); }
    case Fire(k', i, ec) => if k' < |l.conns| && i < |Waits(l.reactors[k'])| { FireOldStale(l, k, n, k', i, ec); }
    case CallBlocking(k', op) =>
      if k' < |l.conns| {
        BlockingToken(l.conns[k'], op);
        UpdateOldStale(l, k, n, k', Blocking(l.conns[k'], op).conn, l.next);
      }
    case CancelAll(k') => if k' < |l.conns| { UpdateOldStale(l, k, n, k', Cancel(l.conns[k']), l.next); }
    case CloseConn(k') => if k' < |l.conns| && l.conns[k'].initialized { CloseOldStale(l, k, n, k'); }
  }

  lemma {:induction false} RunOldStale(l: Loop, k: nat, n: nat, steps: seq<Step>)
    requires LoopOk(l) && OldStale(l, k, n) && n <= l.next
    ensures OldStale(Exec(l, steps), k, n) && LoopOk(Exec(l, steps))
    decreases |steps|
  {
    if steps != [] {
      StepOldStale(l, k, n, steps[0]);
      StepOk(l, steps[0]);
      RunOldStale(Apply(l, steps[0]), k, n, steps[1..]);
    }
  }

  /** A cancelled operation, or one whose wait was cancelled, calls nothing, waits for nothing and completes. */
  lemma {:induction false} StaleAborts(l: Loop, i: nat)
    requires |l.conns| == |l.reactors| && i < |l.ready| && l.ready[i].Resumption?
    requires Stale(l, l.ready[i].task) || (l.ready[i].ec == OPERATION_ABORTED && l.ready[i].task.conn < |l.conns|)
    ensures Apply(l, Dispatch(i)) == l.(ready := Remove(l.ready, i),
                                        done := l.done + [Invocation(l.ready[i].task.id, OPERATION_ABORTED, EMPTY_SET)])
  {
  }

  /**
   A wait that failed: if the operation has not expired it calls nothing, waits for
   nothing, and its handler gets the error of the wait and an empty set.
   */
  lemma {:induction false} FailedWaitReports(l: Loop, i: nat)
    requires |l.conns| == |l.reactors| && i < |l.ready| && l.ready[i].Resumption? && l.ready[i].ec.Failed()
    requires var t := l.ready[i].task; t.conn < |l.conns| && t.token == l.conns[t.conn].token
    ensures Apply(l, Dispatch(i)) == l.(ready := Remove(l.ready, i),
                                        done := l.done + [Invocation(l.ready[i].task.id, l.ready[i].ec, EMPTY_SET)])
  {
    var k := l.ready[i].task.conn;
    assert l.conns[k := l.conns[k]] == l.conns;
  }

  lemma {:induction false} CancelledStale(l: Loop, k: nat, s: Step)
    requires LoopOk(l) && k < |l.conns| && (s == CancelAll(k) || (s == CloseConn(k) && l.conns[k].initialized))
    ensures OldStale(Apply(l, s), k, l.next) && Apply(l, s).next == l.next
  {
  }

  /**
   After a cancel, or the close of an open connection, every operation issued
   before it that is still pending completes, whenever it is resumed and whatever
   happened since, with operation_aborted: no connection and no wait changes.
   */
  lemma {:induction false} CancelledAborts(l: Loop, k: nat, s: Step, steps: seq<Step>, i: nat)
    requires LoopOk(l) && k < |l.conns| && (s == CancelAll(k) || (s == CloseConn(k) && l.conns[k].initialized))
    ensures var l1 := Exec(Apply(l, s), steps);
            i < |l1.ready| && l1.ready[i].Resumption? && l1.ready[i].task.conn == k && l1.ready[i].task.id < l.next ==>
            Apply(l1, Dispatch(i)) == l1.(
              ready := Remove(l1.ready, i),
              done := l1.done + [Invocation(l1.ready[i].task.id, OPERATION_ABORTED, EMPTY_SET)])
  {
    StepOk(l, s);
    CancelledStale(l, k, s);
    RunOldStale(Apply(l, s), k, l.next, steps);
    var l1 := Exec(Apply(l, s), steps);
    if i < |l1.ready| && l1.ready[i].Resumption? && l1.ready[i].task.conn == k && l1.ready[i].task.id < l.next {
      assert Stale(l1, l1.ready[i].task);
      StaleAborts(l1, i);
    }
  }
}
