/**
 Where the waits of a run are registered: a wait on the descriptor is for
 readability or writability of a socket that the connection's own handle had, a
 wait on the timer for a timeout, in every state of every run.
 */
module LoopSockets {
  import opened ErrorCodes
  import opened MysqlLibrary
  import opened ConnectionState
  import opened ComposedOps
  import opened Ownership
  import opened Reactors
  import opened EventLoop
  import opened LoopSafety
  import opened ResultLife

  /** The handle had this socket after one of its first calls. */
  ghost predicate HadSocket(h: Handle, fd: int) {
    exists n: nat :: n <= h.calls && fd == h.server.socket(n)
  }

  ghost predicate Placed(c: Conn, r: Reactor) {
    && (r.descriptor != [] ==> HadSocket(c.mysql, r.fd))
    && (forall i | 0 <= i < |r.descriptor| :: r.descriptor[i].event == READ || r.descriptor[i].event == WRITE)
    && (forall i | 0 <= i < |r.timer| :: r.timer[i].event == TIMEOUT)
  }

  ghost predicate AllPlaced(l: Loop) {
    |l.conns| == |l.reactors| && forall k | 0 <= k < |l.conns| :: Placed(l.conns[k], l.reactors[k])
  }

  lemma {:induction false} LaterPlaced(c: Conn, c': Conn, r: Reactor)
    requires Placed(c, r) && Grows(c.mysql, c'.mysql)
    ensures Placed(c', r)
  {
    if r.descriptor != [] {
      var n: nat :| n <= c.mysql.calls && r.fd == c.mysql.server.socket(n);
      assert r.fd == c'.mysql.server.socket(n);
    }
  }

  /** A new wait is on the socket the handle has at that moment. */
  lemma {:induction false} RegisteredPlaced(c: Conn, r: Reactor, status: Status, task: Task)
    ensures Placed(c, Register(r, c.mysql.server.socket(c.mysql.calls), status, task).reactor)
  {
    RegisterTakes(r, c.mysql.server.socket(c.mysql.calls), status, task);
    assert HadSocket(c.mysql, c.mysql.server.socket(c.mysql.calls));
  }

  lemma {:induction false} UpdatePlaced(l: Loop, k: nat, c: Conn, next: nat)
    requires AllPlaced(l) && k < |l.conns| && Grows(l.conns[k].mysql, c.mysql)
    ensures AllPlaced(l.(conns := l.conns[k := c], next := next))
  {
    LaterPlaced(l.conns[k], c, l.reactors[k]);
  }

  lemma {:induction false} PlacePlaced(l: Loop, k: nat, id: nat, op: Op, token: nat, turn: Turn)
    requires AllPlaced(l) && k < |l.conns| && Grows(l.conns[k].mysql, turn.Conn().mysql)
    ensures AllPlaced(Place(l, k, id, op, token, turn))
  {
    LaterPlaced(l.conns[k], turn.Conn(), l.reactors[k]);
    if turn.Suspend? {
      RegisteredPlaced(turn.conn, l.reactors[k], turn.status, Task(id, k, token, op, turn.phase, FINISH));
    }
  }

  lemma {:induction false} IssuePlaced(l: Loop, k: nat, op: Op)
    requires Shape(l) && AllPlaced(l) && k < |l.conns|
    ensures AllPlaced(IssueOp(l, k, op))
  {
    var c := l.conns[k];
    var o := Prepared(c, op);
    PreparedGrows(c, op);
    PreparedSound(c, op);
    UpdatePlaced(l, k, o.conn, l.next + 1);
    if !o.ec.Failed() {
      EnterGrows(o.conn, op);
      FreeGrows(o.conn);
      var l1 := l.(conns := l.conns[k := o.conn], next := l.next + 1);
      PlacePlaced(l1, k, l.next, op, o.conn.token, Enter(o.conn, op));
    }
  }

  lemma {:induction false} PreparedGrows(c: Conn, op: Op)
    ensures Grows(c.mysql, Prepared(c, op).conn.mysql)
  {
  }

  lemma {:induction false} DispatchPlaced(l: Loop, i: nat)
    requires Shape(l) && AllPlaced(l) && i < |l.ready|
    ensures AllPlaced(DispatchReady(l, i))
  {
    if l.ready[i].Resumption? {
      var t := l.ready[i].task;
      assert TaskOk(l, t);
      ResumeGrows(l.conns[t.conn], t.op, t.phase, t.token, l.ready[i].ec);
      PlacePlaced(l.(ready := Remove(l.ready, i)), t.conn, t.id, t.op, t.token,
                  Resume(l.conns[t.conn], t.op, t.phase, t.token, l.ready[i].ec));
    }
  }

  lemma {:induction false} FirePlaced(l: Loop, k: nat, i: nat, ec: ErrorCode)
    requires Shape(l) && AllPlaced(l) && k < |l.conns| && i < |Waits(l.reactors[k])|
    ensures AllPlaced(Apply(l, Fire(k, i, ec)))
  {
    OnlyWait(l.reactors[k], i);
    assert RemoveWait(l.reactors[k], i).descriptor == [] && RemoveWait(l.reactors[k], i).timer == [];
  }

  lemma {:induction false} StepPlaced(l: Loop, s: Step)
    requires Shape(l) && AllPlaced(l)
    ensures AllPlaced(Apply(l, s))
  {
    match s
    case Issue(k, op) => if k < |l.conns| { IssuePlaced(l, k, op); }
    case Fire(k, i, ec) => if k < |l.conns| && i < |Waits(l.reactors[k])| { FirePlaced(l, k, i, ec); }
    case Dispatch(i) => if i < |l.ready| { DispatchPlaced(l, i); }
    case CancelAll(k) => if k < |l.conns| { UpdatePlaced(l, k, Cancel(l.conns[k]), l.next); }
    case CloseConn(_) =>
    case CallBlocking(k, op) =>
      if k < |l.conns| {
        BlockingGrows(l.conns[k], op);
        FreeGrows(l.conns[k]);
        UpdatePlaced(l, k, Blocking(l.conns[k], op).conn, l.next);
      }
  }

  /** In every state of every run each wait is registered where its event can happen. */
  lemma {:induction false} EveryRunPlaced(l: Loop, steps: seq<Step>)
    requires LoopOk(l) && AllPlaced(l)
    ensures AllPlaced(Exec(l, steps))
    decreases |steps|
  {
    if steps != [] {
      StepOk(l, steps[0]);
      StepPlaced(l, steps[0]);
      EveryRunPlaced(Apply(l, steps[0]), steps[1..]);
    }
  }

  lemma {:induction false} InitialPlaced(servers: seq<Server>)
    ensures AllPlaced(Initial(servers))
  {
  }
}
