/**
 What the completions of the event loop carry: the error that refused an
 operation, the result of a wait that fired, and operation_aborted for a wait that
 was replaced or closed.
 */
module LoopCompletions {
  import opened ErrorCodes
  import opened MysqlLibrary
  import opened ConnectionState
  import opened ComposedOps
  import opened Reactors
  import opened EventLoop
  import opened LoopSafety
  import opened LoopIsolation
  import opened BlockingAnswers

  /** The error with which issuing `op` on `c` is refused, if it is; told from the library alone. */
  predicate RefusedWith(c: Conn, op: Op, ec: ErrorCode) {
    var h := c.mysql;
    var calls := if c.initialized then h.calls else h.calls + 1;
    if !op.ConnectOp? then !c.initialized && ec == NOT_INITIALIZED
    else if !c.initialized && !h.server.init(h.calls) then ec == INITIALIZATION_ERROR
    else h.server.option(calls) != 0 && ec == ErrorCode(h.server.option(calls), ClientCategory)
  }

  /**
   An operation that is refused posts exactly its error, and no wait is touched; a
   connection that an operation other than connect found closed stays as it was.
   */
  lemma {:induction false} RefusalPosts(l: Loop, k: nat, op: Op, ec: ErrorCode)
    requires k < |l.conns| == |l.reactors| && RefusedWith(l.conns[k], op, ec)
    ensures var l' := Apply(l, Issue(k, op));
            && l' == l.(conns := l'.conns, ready := l.ready + [Posted(l.next, ec)], next := l.next + 1)
            && (!op.ConnectOp? ==> l'.conns == l.conns)
  {
    assert l.conns[k := l.conns[k]] == l.conns;
    OpenAnswers(l.conns[k]);
    SetOptionAnswers(Open(l.conns[k]).conn);
  }

  /** And an operation that is not refused posts nothing. */
  lemma {:induction false} RefusedIff(l: Loop, k: nat, op: Op)
    requires k < |l.conns| == |l.reactors|
    ensures (exists ec :: RefusedWith(l.conns[k], op, ec)) <==> Prepared(l.conns[k], op).ec.Failed()
  {
    var ec := Prepared(l.conns[k], op).ec;
    OpenAnswers(l.conns[k]);
    SetOptionAnswers(Open(l.conns[k]).conn);
    if ec.Failed() {
      assert RefusedWith(l.conns[k], op, ec);
    }
  }

  /** A posted error reaches its handler, with an empty set, and does nothing else. */
  lemma {:induction false} PostedReports(l: Loop, i: nat)
    requires |l.conns| == |l.reactors| && i < |l.ready| && l.ready[i].Posted?
    ensures Apply(l, Dispatch(i)) == l.(ready := Remove(l.ready, i),
                                        done := l.done + [Invocation(l.ready[i].id, l.ready[i].ec, EMPTY_SET)])
  {
  }

  /** Cancelling changes a token and nothing else, not even the waits; closing a closed connection changes nothing. */
  lemma {:induction false} CancelOnlyExpires(l: Loop, k: nat)
    requires k < |l.conns| == |l.reactors|
    ensures var l' := Apply(l, CancelAll(k));
            && l' == l.(conns := l'.conns) && |l'.conns| == |l.conns| && l'.conns[k].token > l.conns[k].token
            && l'.conns[k].(token := l.conns[k].token) == l.conns[k]
            && (forall j | 0 <= j < |l.conns| && j != k :: l'.conns[j] == l.conns[j])
    ensures !l.conns[k].initialized ==> Apply(l, CloseConn(k)) == l
  {
  }

  /**
   An operation whose call was abandoned, because another one was started on its
   connection, is told that commands are out of sync.
   */
  lemma {:induction false} AbandonedReports(c: Conn, op: Op, phase: Kind)
    requires c.mysql.inflight.None? || c.mysql.inflight.value.call.Kind() != phase
    ensures Resume(c, op, phase, c.token, SUCCESS)
            == Invoke(Outcome(c.(mysql := c.mysql.(errno := 2014)), ErrorCode(2014, ClientCategory), EMPTY_SET))
  {
  }

  /** A wait that fires carries its own result, whatever it is, and nothing else changes. */
  lemma {:induction false} FireReports(l: Loop, k: nat, i: nat, ec: ErrorCode)
    requires k < |l.conns| == |l.reactors| && i < |Waits(l.reactors[k])| && ReactorOk(l.reactors[k])
    ensures var l' := Apply(l, Fire(k, i, ec));
            && l'.ready == l.ready + [Resumption(Waits(l.reactors[k])[i], ec)] && Waits(l'.reactors[k]) == []
            && l' == l.(reactors := l'.reactors, ready := l'.ready)
            && (forall j | 0 <= j < |l.reactors| && j != k :: l'.reactors[j] == l.reactors[j])
  {
    OnlyWait(l.reactors[k], i);
  }

  lemma {:induction false} AbortedCarry(ready: seq<Ready>, waits: seq<Task>, t: Task)
    requires t in waits
    ensures Resumption(t, OPERATION_ABORTED) in ready + Aborted(waits)
  {
    var i :| 0 <= i < |waits| && waits[i] == t;
    assert Aborted(waits)[i] == Resumption(t, OPERATION_ABORTED);
  }

  /** A wait registered on the connection of a turn that waits is over, as aborted. */
  lemma {:induction false} ReplacedAborts(l: Loop, k: nat, id: nat, op: Op, token: nat, turn: Turn, t: Task)
    requires k < |l.conns| == |l.reactors| && turn.Suspend? && t in Waits(l.reactors[k])
    ensures Resumption(t, OPERATION_ABORTED) in Place(l, k, id, op, token, turn).ready
  {
    AbortedCarry(l.ready, Waits(l.reactors[k]), t);
  }

  /** So is one registered on a connection that is closed. */
  lemma {:induction false} ClosedAborts(l: Loop, k: nat, t: Task)
    requires k < |l.conns| == |l.reactors| && l.conns[k].initialized && t in Waits(l.reactors[k])
    ensures Resumption(t, OPERATION_ABORTED) in Apply(l, CloseConn(k)).ready
    ensures Waits(Apply(l, CloseConn(k)).reactors[k]) == []
  {
    AbortedCarry(l.ready, Waits(l.reactors[k]), t);
  }

  /**
   Issuing an operation that is suspended at once takes the connection's wait away
   from the operation that had it, whose handler gets operation_aborted when it is
   run next, without a library call.
   */
  lemma {:induction false} SupersededAborts(l: Loop, k: nat, op: Op, t: Task, i: nat)
    requires LoopOk(l) && k < |l.conns| && t in Waits(l.reactors[k])
    requires var o := Prepared(l.conns[k], op); !o.ec.Failed() && Enter(o.conn, op).Suspend?
    ensures var l1 := Apply(l, Issue(k, op));
            && Resumption(t, OPERATION_ABORTED) in l1.ready
            && (i < |l1.ready| && l1.ready[i] == Resumption(t, OPERATION_ABORTED) ==>
                  Apply(l1, Dispatch(i)) == l1.(ready := Remove(l1.ready, i),
                                                done := l1.done + [Invocation(t.id, OPERATION_ABORTED, EMPTY_SET)]))
  {
    var o := Prepared(l.conns[k], op);
    var l1 := l.(conns := l.conns[k := o.conn], next := l.next + 1);
    assert Apply(l, Issue(k, op)) == Place(l1, k, l.next, op, o.conn.token, Enter(o.conn, op));
    ReplacedAborts(l1, k, l.next, op, o.conn.token, Enter(o.conn, op), t);
    var l2 := Apply(l, Issue(k, op));
    StepOk(l, Issue(k, op));
    if i < |l2.ready| && l2.ready[i] == Resumption(t, OPERATION_ABORTED) {
      assert TaskOk(l2, l2.ready[i].task);
      StaleAborts(l2, i);
    }
  }
}
