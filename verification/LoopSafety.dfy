/** What holds in every run of the event loop, whatever is issued, fired, cancelled or closed, and when. */
module LoopSafety {
  import opened ErrorCodes
  import opened MysqlLibrary
  import opened ConnectionState
  import opened ComposedOps
  import opened Ownership
  import opened Reactors
  import opened EventLoop

  function Fresh(server: Server): Conn {
    Conn(Handle(server, 0, 0, None, [], 0, [], [], None), Flags(false, false, 0), false, false, None, 0)
  }

  function Initial(servers: seq<Server>): Loop {
    Loop(seq(|servers|, i requires 0 <= i < |servers| => Fresh(servers[i])), seq(|servers|, _ => IDLE), [], [], [], 0)
  }

  function Exec(l: Loop, steps: seq<Step>): (l': Loop)
    requires |l.conns| == |l.reactors|
    ensures |l'.conns| == |l'.reactors| == |l.conns|
    decreases |steps|
  {
    if steps == [] then l else Exec(Apply(l, steps[0]), steps[1..])
  }

  lemma {:induction false} PreparedSound(c: Conn, op: Op)
    requires Sound(c)
    ensures Sound(Prepared(c, op).conn) && Prepared(c, op).conn.token == c.token
    ensures !Prepared(c, op).ec.Failed() ==> Prepared(c, op).conn.initialized
  {
  }

  lemma {:induction false} EnterToken(c: Conn, op: Op)
    ensures Enter(c, op).Conn().token == c.token
  {
  }

  lemma {:induction false} ResumeToken(c: Conn, op: Op, phase: Kind, token: nat, ec: ErrorCode)
    ensures Resume(c, op, phase, token, ec).Conn().token == c.token
  {
  }

  lemma {:induction false} BlockingToken(c: Conn, op: Op)
    ensures Blocking(c, op).conn.token == c.token
  {
  }

  lemma {:induction false} SuspendShape(l: Loop, k: nat, c: Conn, task: Task, reg: Registration, lost: seq<nat>)
    requires Shape(l) && k < |l.conns| && Sound(c) && c.token == l.conns[k].token
    requires task.conn == k && task.token <= c.token && reg.aborted == Waits(l.reactors[k])
    requires ReactorOk(reg.reactor) && forall i | 0 <= i < |Waits(reg.reactor)| :: Waits(reg.reactor)[i] == task
    ensures Shape(l.(conns := l.conns[k := c], reactors := l.reactors[k := reg.reactor],
                     ready := l.ready + Aborted(reg.aborted), lost := lost))
  {
  }

  lemma {:induction false} PlaceShape(l: Loop, k: nat, id: nat, op: Op, token: nat, turn: Turn)
    requires Shape(l) && k < |l.conns| && token <= l.conns[k].token
    requires Sound(turn.Conn()) && turn.Conn().token == l.conns[k].token
    ensures Shape(Place(l, k, id, op, token, turn))
  {
    if turn.Suspend? {
      var task := Task(id, k, token, op, turn.phase, FINISH);
      var reg := Register(l.reactors[k], turn.conn.mysql.server.socket(turn.conn.mysql.calls), turn.status, task);
      SuspendShape(l, k, turn.conn, Waiting(task, turn.status), reg, l.lost + if reg.lost then [id] else []);
    }
  }

  lemma {:induction false} UpdateShape(l: Loop, k: nat, c: Conn, next: nat)
    requires Shape(l) && k < |l.conns| && Sound(c) && c.token >= l.conns[k].token
    ensures Shape(l.(conns := l.conns[k := c], next := next))
  {
  }

  lemma {:induction false} PostShape(l: Loop, id: nat, ec: ErrorCode)
    requires Shape(l)
    ensures Shape(Post(l, id, ec))
  {
  }

  lemma {:induction false} PostOrPlaceShape(l: Loop, k: nat, id: nat, op: Op, token: nat, ec: ErrorCode, turn: Turn)
    requires Shape(l) && k < |l.conns| && token <= l.conns[k].token
    requires !ec.Failed() ==> Sound(turn.Conn()) && turn.Conn().token == l.conns[k].token
    ensures Shape(PostOrPlace(l, k, id, op, token, ec, turn))
  {
    if ec.Failed() { PostShape(l, id, ec); } else { PlaceShape(l, k, id, op, token, turn); }
  }

  lemma {:induction false} EnteredShape(l: Loop, k: nat, op: Op, c: Conn, ec: ErrorCode, turn: Turn)
    requires Shape(l) && k < |l.conns| && Sound(c) && c.token == l.conns[k].token
    requires !ec.Failed() ==> Sound(turn.Conn()) && turn.Conn().token == c.token
    ensures Shape(Entered(l, k, op, c, ec, turn))
  {
    hide Sound;
    var l1 := l.(conns := l.conns[k := c], next := l.next + 1);
    assert Shape(l1) by { UpdateShape(l, k, c, l.next + 1); }
    assert l1.conns[k] == c;
    PostOrPlaceShape(l1, k, l.next, op, c.token, ec, turn);
  }

  lemma {:induction false} IssueShape(l: Loop, k: nat, op: Op)
    requires Shape(l) && k < |l.conns|
    ensures Shape(IssueOp(l, k, op))
  {
    var c := Prepared(l.conns[k], op).conn;
    var ec := Prepared(l.conns[k], op).ec;
    var turn := Enter(c, op);
    PreparedSound(l.conns[k], op);
    if !ec.Failed() {
      EnterSound(c, op);
      EnterToken(c, op);
    }
    EnteredShape(l, k, op, c, ec, turn);
  }

  lemma {:induction false} DispatchShape(l: Loop, i: nat)
    requires Shape(l) && i < |l.ready|
    ensures Shape(DispatchReady(l, i))
  {
    var l1 := l.(ready := Remove(l.ready, i));
    assert Shape(l1);
    if l.ready[i].Resumption? {
      var t := l.ready[i].task;
      assert TaskOk(l, t);
      ResumeSound(l.conns[t.conn], t.op, t.phase, t.token, l.ready[i].ec);
      ResumeToken(l.conns[t.conn], t.op, t.phase, t.token, l.ready[i].ec);
      PlaceShape(l1, t.conn, t.id, t.op, t.token, Resume(l.conns[t.conn], t.op, t.phase, t.token, l.ready[i].ec));
    }
  }

  lemma {:induction false} FireShape(l: Loop, k: nat, i: nat, ec: ErrorCode)
    requires Shape(l)
    ensures Shape(Apply(l, Fire(k, i, ec)))
  {
    if k < |l.conns| && i < |Waits(l.reactors[k])| {
      OnlyWait(l.reactors[k], i);
    }
  }

  lemma {:induction false} CloseShape(l: Loop, k: nat)
    requires Shape(l) && k < |l.conns| && l.conns[k].initialized
    ensures Shape(Apply(l, CloseConn(k)))
  {
    CloseFreesAll(l.conns[k]);
    var l' := Apply(l, CloseConn(k));
    assert forall i | 0 <= i < |l'.ready| && l'.ready[i].Resumption? ::
        i < |l.ready| || l'.ready[i].task in Waits(l.reactors[k]);
  }

  lemma {:induction false} StepShape(l: Loop, s: Step)
    requires Shape(l)
    ensures Shape(Apply(l, s))
  {
    match s
    case Issue(k, op) => if k < |l.conns| { IssueShape(l, k, op); }
    case Fire(k, i, ec) => FireShape(l, k, i, ec);
    case Dispatch(i) => if i < |l.ready| { DispatchShape(l, i); }
    case CancelAll(k) => if k < |l.conns| { UpdateShape(l, k, Cancel(l.conns[k]), l.next); }
    case CloseConn(k) => if k < |l.conns| && l.conns[k].initialized { CloseShape(l, k); }
    case CallBlocking(k, op) =>
      if k < |l.conns| && (op.StoreOp? ==> l.conns[k].initialized) {
        BlockingSound(l.conns[k], op);
        BlockingToken(l.conns[k], op);
        UpdateShape(l, k, Blocking(l.conns[k], op).conn, l.next);
      }
  }

  lemma {:induction false} StepOk(l: Loop, s: Step)
    requires LoopOk(l)
    ensures LoopOk(Apply(l, s))
  {
    StepShape(l, s);
    forall id: nat ensures Once(Apply(l, s), id) {
      StepOnce(l, s, id);
    }
  }

  lemma {:induction false} NoWaits(n: nat, f: Weight)
    ensures WaitSum(seq(n, _ => IDLE), f) == 0
  {
    if n > 0 {
      assert seq(n, _ => IDLE)[1..] == seq(n - 1, _ => IDLE);
      NoWaits(n - 1, f);
    }
  }

  /**
   Safety over whole runs: in every state of every run each connection accounts
   for its native results, at most one wait is registered per connection, and
   every operation is pending, invoked or lost, exactly once.
   */
  lemma {:induction false} EveryRunOk(l: Loop, steps: seq<Step>)
    requires LoopOk(l)
    ensures LoopOk(Exec(l, steps))
    decreases |steps|
  {
    if steps != [] {
      StepOk(l, steps[0]);
      EveryRunOk(Apply(l, steps[0]), steps[1..]);
    }
  }

  lemma {:induction false} InitialOk(servers: seq<Server>)
    ensures LoopOk(Initial(servers))
  {
    forall id: nat ensures Once(Initial(servers), id) {
      NoWaits(|servers|, One(id));
    }
  }
}
