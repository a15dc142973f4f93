/**
 The functions of the non-blocking service that issue an operation: they open the
 connection or refuse, construct the composed operation and run its first turn
 inside the call. Each is proved to do to its connection what the issuing step of
 the event loop does.
 */
module MariadbServices {
  import opened ErrorCodes
  import opened MysqlLibrary
  import opened ConnectionState
  import opened ComposedOps
  import opened Reactors
  import opened EventLoop
  import opened Connector
  import opened ComposedHandlers

  /**
   What issuing an operation came to: an error posted for later, a handler invoked
   at once, or an operation suspended in a call, with the waits it replaced.
   */
  datatype Outset =
    | Refusal(ec: ErrorCode)
    | Immediate(ec: ErrorCode, rs: View)
    | Suspension(phase: Kind, aborted: seq<Task>, lost: bool)

  datatype Issued = Issued(conn: Conn, reactor: Reactor, start: Outset)

  /** Operation `id`, issued on connection number `k`. */
  function Issuing(c: Conn, r: Reactor, k: nat, id: nat, op: Op): Issued {
    var c1 := Prepared(c, op).conn;
    if Prepared(c, op).ec.Failed() then Issued(c1, r, Refusal(Prepared(c, op).ec))
    else
      match Enter(c1, op)
      case Invoke(out) => Issued(out.conn, r, Immediate(out.ec, out.rs))
      case Suspend(c2, phase, status) =>
        var task := Task(id, k, c1.token, op, phase, FINISH);
        var reg := Register(r, c2.mysql.server.socket(c2.mysql.calls), status, task);
        Issued(c2, reg.reactor, Suspension(phase, reg.aborted, reg.lost))
  }

  /** Issuing changes the connection, its reactor, the ready completions, the invocations and the lost ones so. */
  lemma {:induction false} IssueStep(l: Loop, k: nat, op: Op)
    requires k < |l.conns| == |l.reactors|
    ensures var i := Issuing(l.conns[k], l.reactors[k], k, l.next, op);
            IssueOp(l, k, op) ==
            Loop(l.conns[k := i.conn], l.reactors[k := i.reactor],
                 l.ready + (match i.start
                            case Refusal(ec) => [Posted(l.next, ec)]
                            case Immediate(_, _) => []
                            case Suspension(_, aborted, _) => Aborted(aborted)),
                 l.done + (if i.start.Immediate? then [Invocation(l.next, i.start.ec, i.start.rs)] else []),
                 l.lost + (if i.start.Suspension? && i.start.lost then [l.next] else []),
                 l.next + 1)
  {
    assert l.reactors[k := l.reactors[k]] == l.reactors;
    assert l.ready + [] == l.ready && l.done + [] == l.done && l.lost + [] == l.lost;
    var c := Prepared(l.conns[k], op).conn;
    assert l.conns[k := c][k := Enter(c, op).Conn()] == l.conns[k := Enter(c, op).Conn()];
  }

  method AsyncConnect(conn: Connection, k: nat, id: nat, target: Target, flags: Flags)
    returns (start: Outset, op: ConnectHandler?)
    requires ReactorOk(conn.Reactor())
    modifies conn
    ensures Issued(conn.State(), conn.Reactor(), start)
            == Issuing(old(conn.State()), old(conn.Reactor()), k, id, ConnectOp(target, flags))
    ensures start.Suspension? ==>
              && op != null && fresh(op) && op.Valid() && op.At() == Some(start.phase) && op.conn == conn
              && op.id == id && op.index == k && op.token == old(conn.cancelationToken)
              && op.Operation() == ConnectOp(target, flags)
  {
    op := null;
    if !conn.initialized {
      var ec := conn.Open();
      if ec.Failed() { return Refusal(ec), null; }
    }
    var refusal := conn.SetOption();
    if refusal.Failed() { return Refusal(refusal), null; }
    op := new ConnectHandler(conn, id, k, target, flags);
    var waiting, ec, aborted, lost := op.Call(SUCCESS, FINISH);
    start := if waiting then Suspension(op.At().value, aborted, lost) else Immediate(ec, EMPTY_SET);
  }

  method AsyncQuery(conn: Connection, k: nat, id: nat, stmt: string) returns (start: Outset, op: QueryHandler?)
    requires ReactorOk(conn.Reactor())
    modifies conn
    ensures Issued(conn.State(), conn.Reactor(), start)
            == Issuing(old(conn.State()), old(conn.Reactor()), k, id, QueryOp(stmt))
    ensures start.Suspension? ==>
              && op != null && fresh(op) && op.Valid() && op.At() == Some(start.phase) && op.conn == conn
              && op.id == id && op.index == k && op.token == old(conn.cancelationToken)
              && op.Operation() == QueryOp(stmt)
  {
    if !conn.initialized { return Refusal(NOT_INITIALIZED), null; }
    op := new QueryHandler(conn, id, k, stmt);
    var waiting, ec, aborted, lost := op.Call(SUCCESS, FINISH);
    start := if waiting then Suspension(op.At().value, aborted, lost) else Immediate(ec, EMPTY_SET);
  }

  method AsyncStoreResult(conn: Connection, k: nat, id: nat) returns (start: Outset, op: StoreResultHandler?)
    requires ReactorOk(conn.Reactor())
    modifies conn
    ensures Issued(conn.State(), conn.Reactor(), start)
            == Issuing(old(conn.State()), old(conn.Reactor()), k, id, StoreOp)
    ensures start.Suspension? ==>
              && op != null && fresh(op) && op.Valid() && op.At() == Some(start.phase) && op.conn == conn
              && op.id == id && op.index == k && op.token == old(conn.cancelationToken)
  {
    if !conn.initialized { return Refusal(NOT_INITIALIZED), null; }
    op := new StoreResultHandler(conn, id, k);
    var waiting, ec, rs, aborted, lost, _ := op.Call(SUCCESS, FINISH);
    start := if waiting then Suspension(op.At().value, aborted, lost) else Immediate(ec, rs.View());
  }

  method AsyncQueryResult(conn: Connection, k: nat, id: nat, stmt: string)
    returns (start: Outset, op: QueryResultHandler?)
    requires ReactorOk(conn.Reactor())
    modifies conn
    ensures Issued(conn.State(), conn.Reactor(), start)
            == Issuing(old(conn.State()), old(conn.Reactor()), k, id, QueryResultOp(stmt))
    ensures start.Suspension? ==>
              && op != null && fresh(op) && op.Valid() && op.At() == Some(start.phase) && op.conn == conn
              && op.id == id && op.index == k && op.token == old(conn.cancelationToken)
              && op.Operation() == QueryResultOp(stmt)
  {
    if !conn.initialized { return Refusal(NOT_INITIALIZED), null; }
    op := new QueryResultHandler(conn, id, k, stmt);
    var waiting, ec, rs, aborted, lost, _ := op.Call(SUCCESS, FINISH);
    start := if waiting then Suspension(op.At().value, aborted, lost) else Immediate(ec, rs.View());
  }
}
