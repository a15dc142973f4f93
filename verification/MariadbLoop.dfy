/**
 The event loop with its objects: connections updated in place, suspended
 operations as handler objects, the ready completions as a queue. Each method is
 proved to be one step of EventLoop, so the theorems about its runs are theorems
 about the handlers as written.
 */
module MariadbLoops {
  import opened ErrorCodes
  import opened MysqlLibrary
  import opened ConnectionState
  import opened ComposedOps
  import opened Reactors
  import opened EventLoop
  import Ownership
  import opened LoopSafety
  import opened Connector
  import opened ComposedHandlers
  import opened MariadbServices

  /** A suspended composed operation. */
  datatype Operation =
    | OfConnect(connect: ConnectHandler)
    | OfQuery(query: QueryHandler)
    | OfStore(store: StoreResultHandler)
    | OfQueryResult(queryResult: QueryResultHandler)
  {
    function Object(): object {
      match this
      case OfConnect(h) => h
      case OfQuery(h) => h
      case OfStore(h) => h
      case OfQueryResult(h) => h
    }

    /** The operation is the one `t` stands for, suspended where `t` says. */
    ghost predicate Carries(t: Task, conn: Connection)
      reads Object()
    {
      match this
      case OfConnect(h) =>
        && h.conn == conn && h.Valid()
        && (h.id, h.index, h.token, h.Operation(), h.At()) == (t.id, t.conn, t.token, t.op, Some(t.phase))
      case OfQuery(h) =>
        && h.conn == conn && h.Valid()
        && (h.id, h.index, h.token, h.Operation(), h.At()) == (t.id, t.conn, t.token, t.op, Some(t.phase))
      case OfStore(h) =>
        && h.conn == conn && h.Valid()
        && (h.id, h.index, h.token, StoreOp, h.At()) == (t.id, t.conn, t.token, t.op, Some(t.phase))
      case OfQueryResult(h) =>
        && h.conn == conn && h.Valid()
        && (h.id, h.index, h.token, h.Operation(), h.At()) == (t.id, t.conn, t.token, t.op, Some(t.phase))
    }
  }

  /** What the turn of an operation returned, and did to its connection and reactor. */
  ghost predicate Taken(turn: Turn, t: Task, r: Reactor, c': Conn, r': Reactor,
                        waiting: bool, ec: ErrorCode, rs: View, aborted: seq<Task>, lost: bool) {
    match turn
    case Invoke(out) => !waiting && Outcome(c', ec, rs) == out && r' == r && aborted == [] && !lost
    case Suspend(c, phase, s) =>
      && waiting && c' == c
      && Registration(r', aborted, lost)
         == Register(r, c.mysql.server.socket(c.mysql.calls), s, t.(phase := phase))
  }

  lemma {:induction false} TakenPlaces(l: Loop, turn: Turn, t: Task, c': Conn, r': Reactor,
      waiting: bool, ec: ErrorCode, rs: View, aborted: seq<Task>, lost: bool)
    requires t.conn < |l.conns| == |l.reactors|
    requires Taken(turn, t, l.reactors[t.conn], c', r', waiting, ec, rs, aborted, lost)
    ensures Place(l, t.conn, t.id, t.op, t.token, turn) ==
            Loop(l.conns[t.conn := c'], l.reactors[t.conn := r'],
                 if waiting then l.ready + Aborted(aborted) else l.ready,
                 if waiting then l.done else l.done + [Invocation(t.id, ec, rs)],
                 if waiting && lost then l.lost + [t.id] else l.lost, l.next)
  {
    assert l.reactors[t.conn := l.reactors[t.conn]] == l.reactors && l.lost + [] == l.lost;
  }

  /** Calls the handler object again, with the result of its wait. */
  method ResumeOperation(o: Operation, conn: Connection, t: Task, ec0: ErrorCode)
    returns (waiting: bool, ec: ErrorCode, rs: View, aborted: seq<Task>, lost: bool)
    requires o.Carries(t, conn) && ReactorOk(conn.Reactor())
    modifies o.Object(), conn
    ensures var turn := Resume(old(conn.State()), t.op, t.phase, t.token, ec0);
            && Taken(turn, t, old(conn.Reactor()), conn.State(), conn.Reactor(), waiting, ec, rs, aborted, lost)
            && (turn.Suspend? ==> o.Carries(Waiting(t.(phase := turn.phase), turn.status), conn))
  {
    rs := EMPTY_SET;
    match o
    case OfConnect(h) => waiting, ec, aborted, lost := h.Call(ec0, t.event);
    case OfQuery(h) => waiting, ec, aborted, lost := h.Call(ec0, t.event);
    case OfStore(h) =>
      var w, e, r, a, l, _ := h.Call(ec0, t.event);
      waiting, ec, rs, aborted, lost := w, e, r.View(), a, l;
    case OfQueryResult(h) =>
      var w, e, r, a, l, _ := h.Call(ec0, t.event);
      waiting, ec, rs, aborted, lost := w, e, r.View(), a, l;
  }

  /** The blocking form of an operation, called with a clear error code. */
  method CallBlockingForm(conn: Connection, op: Op) returns (ec: ErrorCode, rs: View)
    modifies conn
    ensures Outcome(conn.State(), ec, rs) == Blocking(old(conn.State()), op) && conn.Reactor() == old(conn.Reactor())
  {
    rs := EMPTY_SET;
    match op
    case ConnectOp(target, flags) => ec := conn.Connect(target, flags);
    case QueryOp(stmt) => ec := conn.Query(stmt);
    case StoreOp =>
      var r, e := conn.StoreResult(SUCCESS);
      ec, rs := e, r.View();
    case QueryResultOp(stmt) =>
      var r, e := conn.QueryResult(stmt);
      ec, rs := e, r.View();
  }

  /** Constructs the composed operation, if nothing refuses it, and runs its first turn. */
  method LaunchOperation(conn: Connection, k: nat, id: nat, op: Op) returns (start: Outset, o: Option<Operation>)
    requires ReactorOk(conn.Reactor())
    modifies conn
    ensures Issued(conn.State(), conn.Reactor(), start)
            == Issuing(old(conn.State()), old(conn.Reactor()), k, id, op)
    ensures start.Suspension? ==>
              && o.Some? && fresh(o.value.Object())
              && o.value.Carries(Task(id, k, old(conn.cancelationToken), op, start.phase, FINISH), conn)
  {
    hide Issuing;
    o := None;
    match op
    case ConnectOp(target, flags) =>
      var s, h := AsyncConnect(conn, k, id, target, flags);
      start, o := s, if h == null then None else Some(OfConnect(h));
    case QueryOp(stmt) =>
      var s, h := AsyncQuery(conn, k, id, stmt);
      start, o := s, if h == null then None else Some(OfQuery(h));
    case StoreOp =>
      var s, h := AsyncStoreResult(conn, k, id);
      start, o := s, if h == null then None else Some(OfStore(h));
    case QueryResultOp(stmt) =>
      var s, h := AsyncQueryResult(conn, k, id, stmt);
      start, o := s, if h == null then None else Some(OfQueryResult(h));
  }

  /** The i-th wait of a connection is over and no longer registered. */
  method CompleteWait(conn: Connection, i: nat) returns (task: Task)
    requires i < |Waits(conn.Reactor())|
    modifies conn`descriptorWaits, conn`timerWaits
    ensures task == old(Waits(conn.Reactor())[i]) && conn.Reactor() == RemoveWait(old(conn.Reactor()), i)
  {
    var waits := conn.descriptorWaits;
    if i < |waits| {
      task := waits[i];
      conn.descriptorWaits := Remove(waits, i);
    } else {
      task := conn.timerWaits[i - |waits|];
      conn.timerWaits := Remove(conn.timerWaits, i - |waits|);
    }
  }

  // What is pending, as a value: who is waiting or ready under which id.

  predicate Pends(l: Loop, t: Task) {
    || (exists k | 0 <= k < |l.reactors| :: t in Waits(l.reactors[k]))
    || (exists i | 0 <= i < |l.ready| :: l.ready[i].Resumption? && l.ready[i].task == t)
  }

  /** The task of an operation that was suspended when it was issued. */
  predicate SuspendedTask(u: Task, id: nat, k: nat, token: nat, op: Op, start: Outset) {
    start.Suspension? && u.(event := FINISH) == Task(id, k, token, op, start.phase, FINISH)
  }

  lemma {:induction false} TaskAtLeast(tasks: seq<Task>, t: Task)
    requires t in tasks
    ensures TaskSum(tasks, One(t.id)) >= 1
  {
    if tasks[0] != t { TaskAtLeast(tasks[1..], t); }
  }

  lemma {:induction false} WaitAtLeast(reactors: seq<Reactor>, k: nat, t: Task)
    requires k < |reactors| && t in Waits(reactors[k])
    ensures WaitSum(reactors, One(t.id)) >= 1
  {
    if k == 0 { TaskAtLeast(Waits(reactors[0]), t); } else { WaitAtLeast(reactors[1..], k - 1, t); }
  }

  lemma {:induction false} ReadyAtLeast(ready: seq<Ready>, i: nat, t: Task)
    requires i < |ready| && ready[i].Resumption? && ready[i].task == t
    ensures ReadySum(ready, One(t.id)) >= 1
  {
    if i > 0 { ReadyAtLeast(ready[1..], i - 1, t); }
  }

  lemma {:induction false} PendsAtLeast(l: Loop, t: Task)
    requires Pends(l, t)
    ensures Pending(l, One(t.id)) >= 1
  {
    if k: nat :| k < |l.reactors| && t in Waits(l.reactors[k]) {
      WaitAtLeast(l.reactors, k, t);
    } else {
      var i: nat :| i < |l.ready| && l.ready[i].Resumption? && l.ready[i].task == t;
      ReadyAtLeast(l.ready, i, t);
    }
  }

  /** Nothing else is pending under the id of a completion that is about to run. */
  lemma {:induction false} OnlyOne(l: Loop, i: nat, u: Task)
    requires LoopOk(l) && i < |l.ready| && l.ready[i].Resumption?
    requires Pends(l.(ready := Remove(l.ready, i)), u)
    ensures u.id != l.ready[i].task.id
  {
    var id := l.ready[i].task.id;
    PendsAtLeast(l.(ready := Remove(l.ready, i)), u);
    ReadyRemove(l.ready, i, One(id));
    assert Once(l, id);
  }

  // What a step leaves pending.

  lemma {:induction false} CancelPends(l: Loop, k: nat)
    requires |l.conns| == |l.reactors|
    ensures forall t | Pends(Apply(l, Step.CancelAll(k)), t) :: Pends(l, t)
  {
  }

  lemma {:induction false} BlockPends(l: Loop, k: nat, op: Op)
    requires |l.conns| == |l.reactors|
    ensures forall t | Pends(Apply(l, CallBlocking(k, op)), t) :: Pends(l, t)
  {
  }

  lemma {:induction false} AbortedPends(tasks: seq<Task>, r: Ready)
    requires r in Aborted(tasks)
    ensures r.Resumption? && r.task in tasks
  {
  }

  lemma {:induction false} FirePends(l: Loop, k: nat, i: nat, ec: ErrorCode, t: Task)
    requires k < |l.conns| == |l.reactors| && ReactorOk(l.reactors[k]) && i < |Waits(l.reactors[k])|
    requires Pends(Apply(l, Fire(k, i, ec)), t)
    ensures Pends(l, t)
  {
    var l' := Apply(l, Fire(k, i, ec));
    OnlyWait(l.reactors[k], i);
    if j :| 0 <= j < |l'.ready| && l'.ready[j].Resumption? && l'.ready[j].task == t {
      if j == |l.ready| { assert t in Waits(l.reactors[k]); }
    }
  }

  lemma {:induction false} ClosePends(l: Loop, k: nat, t: Task)
    requires k < |l.conns| == |l.reactors| && l.conns[k].initialized && Pends(Apply(l, CloseConn(k)), t)
    ensures Pends(l, t)
  {
    var l' := Apply(l, CloseConn(k));
    if i :| 0 <= i < |l'.ready| && l'.ready[i].Resumption? && l'.ready[i].task == t {
      if i >= |l.ready| { AbortedPends(Waits(l.reactors[k]), l'.ready[i]); }
    }
  }

  /** A turn leaves pending what was pending, and the operation itself if it was suspended again. */
  lemma {:induction false} PlacePends(l: Loop, k: nat, id: nat, op: Op, token: nat, turn: Turn, t: Task)
    requires k < |l.conns| == |l.reactors| && Pends(Place(l, k, id, op, token, turn), t)
    ensures Pends(l, t) || (turn.Suspend? && t == Waiting(Task(id, k, token, op, turn.phase, FINISH), turn.status))
  {
    var l' := Place(l, k, id, op, token, turn);
    if i :| 0 <= i < |l'.ready| && l'.ready[i].Resumption? && l'.ready[i].task == t {
      if i >= |l.ready| { AbortedPends(Waits(l.reactors[k]), l'.ready[i]); }
    }
  }

  /** Running a completion leaves nothing else pending under its id. */
  lemma {:induction false} DispatchPends(l: Loop, i: nat, u: Task)
    requires LoopOk(l) && i < |l.ready| && l.ready[i].Resumption? && Pends(DispatchReady(l, i), u)
    ensures var t := l.ready[i].task;
            && TaskOk(l, t)
            && var turn := Resume(l.conns[t.conn], t.op, t.phase, t.token, l.ready[i].ec);
               (Pends(l, u) && u.id != t.id) || (turn.Suspend? && u == Waiting(t.(phase := turn.phase), turn.status))
  {
    var l1 := l.(ready := Remove(l.ready, i));
    var t := l.ready[i].task;
    assert TaskOk(l, t);
    var turn := Resume(l.conns[t.conn], t.op, t.phase, t.token, l.ready[i].ec);
    PlacePends(l1, t.conn, t.id, t.op, t.token, turn, u);
    if Pends(l1, u) {
      OnlyOne(l, i, u);
      RemovePends(l, i, u);
    }
  }

  lemma {:induction false} RemovePends(l: Loop, i: nat, u: Task)
    requires i < |l.ready| && Pends(l.(ready := Remove(l.ready, i)), u)
    ensures Pends(l, u)
  {
    var rest := Remove(l.ready, i);
    if j :| 0 <= j < |rest| && rest[j].Resumption? && rest[j].task == u {
      assert l.ready[if j < i then j else j + 1] == rest[j];
    }
  }

  /** All the loop needs to know to run a suspended operation: its turn, and who is pending afterwards. */
  lemma {:induction false} DispatchFacts(l: Loop, i: nat) returns (turn: Turn)
    requires LoopOk(l) && i < |l.ready| && l.ready[i].Resumption?
    ensures var t := l.ready[i].task;
            && Pends(l, t) && TaskOk(l, t) && ReactorOk(l.reactors[t.conn])
            && turn == Resume(l.conns[t.conn], t.op, t.phase, t.token, l.ready[i].ec)
            && forall u | Pends(DispatchReady(l, i), u) ::
                 (Pends(l, u) && u.id != t.id) || (turn.Suspend? && u == Waiting(t.(phase := turn.phase), turn.status))
  {
    var t := l.ready[i].task;
    assert TaskOk(l, t);
    turn := Resume(l.conns[t.conn], t.op, t.phase, t.token, l.ready[i].ec);
    forall u | Pends(DispatchReady(l, i), u)
      ensures (Pends(l, u) && u.id != t.id) || (turn.Suspend? && u == Waiting(t.(phase := turn.phase), turn.status))
    {
      DispatchPends(l, i, u);
    }
  }

  /** All the loop needs to know to issue an operation: what it came to, and who is pending afterwards. */
  lemma {:induction false} IssueFacts(l: Loop, k: nat, op: Op) returns (i: Issued)
    requires LoopOk(l) && k < |l.conns|
    ensures ReactorOk(l.reactors[k]) && LoopOk(IssueOp(l, k, op))
    ensures i == Issuing(l.conns[k], l.reactors[k], k, l.next, op)
    ensures IssueOp(l, k, op) == After(l, k, i)
    ensures forall u | Pends(IssueOp(l, k, op), u) ::
              Pends(l, u) || SuspendedTask(u, l.next, k, l.conns[k].token, op, i.start)
  {
    LoopSafety.StepOk(l, Step.Issue(k, op));
    i := Issuing(l.conns[k], l.reactors[k], k, l.next, op);
    IssueStep(l, k, op);
    forall u | Pends(IssueOp(l, k, op), u)
      ensures Pends(l, u) || SuspendedTask(u, l.next, k, l.conns[k].token, op, i.start)
    {
      IssuePends(l, k, op, u);
    }
  }

  /** The loop after an operation was issued on connection `k`. */
  function After(l: Loop, k: nat, i: Issued): Loop
    requires k < |l.conns| == |l.reactors|
  {
    Loop(l.conns[k := i.conn], l.reactors[k := i.reactor],
         l.ready + (match i.start
                    case Refusal(ec) => [Posted(l.next, ec)]
                    case Immediate(_, _) => []
                    case Suspension(_, aborted, _) => Aborted(aborted)),
         l.done + (if i.start.Immediate? then [Invocation(l.next, i.start.ec, i.start.rs)] else []),
         l.lost + (if i.start.Suspension? && i.start.lost then [l.next] else []),
         l.next + 1)
  }

  lemma {:induction false} IssuePends(l: Loop, k: nat, op: Op, u: Task)
    requires k < |l.conns| == |l.reactors| && Pends(IssueOp(l, k, op), u)
    ensures var i := Issuing(l.conns[k], l.reactors[k], k, l.next, op);
            Pends(l, u) || SuspendedTask(u, l.next, k, l.conns[k].token, op, i.start)
  {
    var o := Prepared(l.conns[k], op);
    var l1 := l.(conns := l.conns[k := o.conn], next := l.next + 1);
    assert o.conn.token == l.conns[k].token;
    hide Enter, Prepared;
    if o.ec.Failed() {
      PostPends(l1, l.next, o.ec, u);
    } else {
      PlacePends(l1, k, l.next, op, o.conn.token, Enter(o.conn, op), u);
    }
  }

  lemma {:induction false} PostPends(l: Loop, id: nat, ec: ErrorCode, u: Task)
    requires Pends(Post(l, id, ec), u)
    ensures Pends(l, u)
  {
  }

  class MariadbLoop {
    const conns: seq<Connection>
    var operations: map<nat, Operation>   // by id, the handler object of each operation that was ever suspended
    var ready: seq<Ready>
    var done: seq<Invocation>
    var lost: seq<nat>
    var next: nat

    ghost function Conns(): seq<Conn>
      reads conns
    {
      seq(|conns|, i requires 0 <= i < |conns| reads conns => conns[i].State())
    }

    ghost function Reactors(): seq<Reactor>
      reads conns
    {
      seq(|conns|, i requires 0 <= i < |conns| reads conns => conns[i].Reactor())
    }

    ghost function State(): Loop
      reads this, conns
    {
      Loop(Conns(), Reactors(), ready, done, lost, next)
    }

    ghost function Objects(): set<object>
      reads this`operations
    {
      set id | id in operations :: operations[id].Object()
    }

    ghost predicate Held(t: Task)
      reads this`operations, Objects()
    {
      t.conn < |conns| && t.id in operations && operations[t.id].Carries(t, conns[t.conn])
    }

    ghost predicate Distinct()
      reads this`operations
    {
      && (forall i, j | 0 <= i < j < |conns| :: conns[i] != conns[j])
      && (forall i, j | i in operations && j in operations && i != j ::
            operations[i].Object() != operations[j].Object())
    }

    ghost predicate Numbered()
      reads this`operations, this`next
    {
      forall id | id in operations :: id < next
    }

    /** The loop is as every run leaves it, and each pending operation is held by an object of its own. */
    ghost predicate Valid()
      reads this, conns, Objects()
    {
      Distinct() && Numbered() && LoopOk(State()) && forall t | Pends(State(), t) :: Held(t)
    }

    constructor (conns: seq<Connection>)
      requires forall i, j | 0 <= i < j < |conns| :: conns[i] != conns[j]
      requires forall i | 0 <= i < |conns| :: conns[i].Reactor() == IDLE && Ownership.Sound(conns[i].State())
      ensures this.conns == conns && Valid()
      ensures ready == [] && done == [] && lost == [] && next == 0
    {
      this.conns := conns;
      operations, ready, done, lost, next := map[], [], [], [], 0;
      new;
      forall id: nat ensures Once(State(), id) {
        NoWaits(|conns|, One(id));
        assert Reactors() == seq(|conns|, _ => IDLE);
      }
    }

    /** One connection updated in place is one element of the states. */
    twostate lemma OneConn(k: nat)
      requires Distinct() && k < |conns|
      requires forall i | 0 <= i < |conns| && i != k :: unchanged(conns[i])
      ensures Conns() == old(Conns())[k := conns[k].State()]
      ensures Reactors() == old(Reactors())[k := conns[k].Reactor()]
    {
    }

    method CancelConn(k: nat)
      requires Distinct() && k < |conns|
      modifies conns[k]
      ensures State() == Apply(old(State()), Step.CancelAll(k))
      ensures forall t | old(Held(t)) :: Held(t)
    {
      conns[k].Cancel();
      OneConn(k);
      assert Reactors() == old(Reactors());
    }

    method CancelAll(k: nat)
      requires Valid() && k < |conns|
      modifies conns[k]
      ensures Valid() && State() == Apply(old(State()), Step.CancelAll(k))
    {
      ghost var l := State();
      LoopSafety.StepOk(l, Step.CancelAll(k));
      CancelPends(l, k);
      CancelConn(k);
    }

    method BlockConn(k: nat, op: Op) returns (ec: ErrorCode, rs: View)
      requires Distinct() && k < |conns|
      modifies conns[k]
      ensures var o := Blocking(old(conns[k].State()), op);
              ec == o.ec && rs == o.rs && Conns() == old(Conns())[k := o.conn]
      ensures Reactors() == old(Reactors())
      ensures forall t | old(Held(t)) :: Held(t)
    {
      ec, rs := CallBlockingForm(conns[k], op);
      OneConn(k);
      assert Reactors() == old(Reactors());
    }

    /** A blocking call between turns of the loop. */
    method Block(k: nat, op: Op) returns (ec: ErrorCode, rs: View)
      requires Valid() && k < |conns| && (op.StoreOp? ==> conns[k].initialized)
      modifies conns[k]
      ensures var o := Blocking(old(conns[k].State()), op); ec == o.ec && rs == o.rs
      ensures Valid() && State() == Apply(old(State()), CallBlocking(k, op))
    {
      hide Blocking, LoopOk;
      ghost var l := State();
      LoopSafety.StepOk(l, CallBlocking(k, op));
      BlockPends(l, k, op);
      ec, rs := BlockConn(k, op);
    }

    /** Completions join the ready ones; no object changes. */
    method MakeReady(more: seq<Ready>)
      modifies this`ready
      ensures ready == old(ready) + more
      ensures Conns() == old(Conns()) && Reactors() == old(Reactors())
      ensures forall u | old(Held(u)) :: Held(u)
    {
      ready := ready + more;
    }

    method TakeWait(k: nat, i: nat) returns (task: Task)
      requires Distinct() && k < |conns| && i < |Waits(conns[k].Reactor())|
      modifies conns[k]
      ensures Conns() == old(Conns()) && Reactors() == old(Reactors())[k := RemoveWait(old(conns[k].Reactor()), i)]
      ensures task == old(Waits(conns[k].Reactor())[i])
      ensures forall u | old(Held(u)) :: Held(u)
    {
      task := CompleteWait(conns[k], i);
      OneConn(k);
      assert Conns() == old(Conns());
    }

    method FireConn(k: nat, i: nat, ec: ErrorCode)
      requires Distinct() && k < |conns| && i < |Waits(conns[k].Reactor())|
      modifies this`ready, conns[k]
      ensures State() == Apply(old(State()), Fire(k, i, ec))
      ensures forall u | old(Held(u)) :: Held(u)
    {
      var task := TakeWait(k, i);
      MakeReady([Resumption(task, ec)]);
    }

    /** A registered wait is over, successfully or not. */
    method WaitOver(k: nat, i: nat, ec: ErrorCode)
      requires Valid() && k < |conns| && i < |Waits(conns[k].Reactor())|
      modifies this`ready, conns[k]
      ensures Valid() && State() == Apply(old(State()), Fire(k, i, ec))
    {
      ghost var l := State();
      LoopSafety.StepOk(l, Fire(k, i, ec));
      forall t | Pends(Apply(l, Fire(k, i, ec)), t) ensures Pends(l, t) { FirePends(l, k, i, ec, t); }
      FireConn(k, i, ec);
    }

    method CloseOne(k: nat) returns (aborted: seq<Task>)
      requires Distinct() && k < |conns|
      modifies conns[k]
      ensures Conns() == old(Conns())[k := ConnectionState.Close(old(conns[k].State()))]
      ensures Reactors() == old(Reactors())[k := IDLE] && aborted == old(Waits(conns[k].Reactor()))
      ensures forall u | old(Held(u)) :: Held(u)
    {
      aborted := conns[k].Close();
      OneConn(k);
    }

    method CloseOpen(k: nat)
      requires Distinct() && k < |conns| && conns[k].initialized
      modifies this`ready, conns[k]
      ensures State() == Apply(old(State()), CloseConn(k))
      ensures forall u | old(Held(u)) :: Held(u)
    {
      var aborted := CloseOne(k);
      MakeReady(Aborted(aborted));
    }

    /** close of the service: only an open connection is closed. */
    method Close(k: nat)
      requires Valid() && k < |conns|
      modifies this`ready, conns[k]
      ensures Valid() && State() == Apply(old(State()), CloseConn(k))
    {
      if conns[k].initialized {
        ghost var l := State();
        LoopSafety.StepOk(l, CloseConn(k));
        forall t | Pends(Apply(l, CloseConn(k)), t) ensures Pends(l, t) { ClosePends(l, k, t); }
        CloseOpen(k);
      }
    }

    /** The object of a ready operation is called again; no other object and no other connection changes. */
    method TakeTurn(t: Task, ec0: ErrorCode, ghost turn: Turn)
      returns (waiting: bool, ec: ErrorCode, rs: View, aborted: seq<Task>, gone: bool)
      requires Distinct() && Held(t) && ReactorOk(conns[t.conn].Reactor())
      requires turn == Resume(conns[t.conn].State(), t.op, t.phase, t.token, ec0)
      modifies conns[t.conn], operations[t.id].Object()
      ensures unchanged(this)
      ensures Place(old(State()), t.conn, t.id, t.op, t.token, turn) ==
              Loop(Conns(), Reactors(),
                   if waiting then old(ready) + Aborted(aborted) else old(ready),
                   if waiting then old(done) else old(done) + [Invocation(t.id, ec, rs)],
                   if waiting && gone then old(lost) + [t.id] else old(lost), old(next))
      ensures turn.Suspend? ==> Held(Waiting(t.(phase := turn.phase), turn.status))
      ensures forall u | old(Held(u)) && u.id != t.id :: Held(u)
    {
      ghost var l := State();
      waiting, ec, rs, aborted, gone := ResumeOperation(operations[t.id], conns[t.conn], t, ec0);
      OneConn(t.conn);
      TakenPlaces(l, turn, t, conns[t.conn].State(), conns[t.conn].Reactor(), waiting, ec, rs, aborted, gone);
    }

    /** An operation waits again, is lost, or its handler is invoked. */
    method Settle(id: nat, waiting: bool, ec: ErrorCode, rs: View, aborted: seq<Task>, gone: bool)
      modifies this`ready, this`done, this`lost
      ensures ready == if waiting then old(ready) + Aborted(aborted) else old(ready)
      ensures done == if waiting then old(done) else old(done) + [Invocation(id, ec, rs)]
      ensures lost == if waiting && gone then old(lost) + [id] else old(lost)
      ensures Conns() == old(Conns()) && Reactors() == old(Reactors())
      ensures forall u | old(Held(u)) :: Held(u)
    {
      if waiting {
        ready := ready + Aborted(aborted);
        if gone { lost := lost + [id]; }
      } else {
        done := done + [Invocation(id, ec, rs)];
      }
    }

    method DispatchTask(t: Task, ec0: ErrorCode, ghost turn: Turn)
      requires Distinct() && Held(t) && ReactorOk(conns[t.conn].Reactor())
      requires turn == Resume(conns[t.conn].State(), t.op, t.phase, t.token, ec0)
      modifies this`ready, this`done, this`lost, conns[t.conn], operations[t.id].Object()
      ensures State() == Place(old(State()), t.conn, t.id, t.op, t.token, turn)
      ensures forall u | old(Held(u)) && u.id != t.id :: Held(u)
      ensures turn.Suspend? ==> Held(Waiting(t.(phase := turn.phase), turn.status))
    {
      hide Resume, Place, Held;
      var waiting, ec, rs, aborted, gone := TakeTurn(t, ec0, turn);
      Settle(t.id, waiting, ec, rs, aborted, gone);
    }

    method Drop(i: nat)
      requires i < |ready|
      modifies this`ready
      ensures ready == Remove(old(ready), i)
      ensures Conns() == old(Conns()) && Reactors() == old(Reactors())
      ensures forall u | old(Held(u)) :: Held(u)
    {
      ready := Remove(ready, i);
    }

    method RunPosted(i: nat)
      requires Valid() && i < |ready| && ready[i].Posted?
      modifies this`ready, this`done, this`lost
      ensures Valid() && State() == Apply(old(State()), Dispatch(i))
    {
      ghost var l := State();
      LoopSafety.StepOk(l, Dispatch(i));
      forall u | Pends(DispatchReady(l, i), u) ensures Pends(l, u) { RemovePends(l, i, u); }
      var completion := ready[i];
      Drop(i);
      Settle(completion.id, false, completion.ec, EMPTY_SET, [], false);
    }

    method DispatchAt(i: nat, t: Task, ec0: ErrorCode, ghost turn: Turn)
      requires Distinct() && Held(t) && i < |ready| && ready[i] == Resumption(t, ec0)
      requires ReactorOk(conns[t.conn].Reactor())
      requires turn == Resume(conns[t.conn].State(), t.op, t.phase, t.token, ec0)
      modifies this`ready, this`done, this`lost, conns[t.conn], operations[t.id].Object()
      ensures State() == DispatchReady(old(State()), i)
      ensures forall u | old(Held(u)) && u.id != t.id :: Held(u)
      ensures turn.Suspend? ==> Held(Waiting(t.(phase := turn.phase), turn.status))
    {
      Drop(i);
      DispatchTask(t, ec0, turn);
    }

    /** The next turn of a suspended operation. */
    method RunResumption(i: nat, t: Task, ec: ErrorCode)
      requires Valid() && i < |ready| && ready[i] == Resumption(t, ec)
      modifies this`ready, this`done, this`lost, conns, Objects()
      ensures Valid() && State() == Apply(old(State()), Dispatch(i))
    {
      hide Resume, DispatchReady, Place, Pends, LoopOk;
      LoopSafety.StepOk(State(), Dispatch(i));
      ghost var turn := DispatchFacts(State(), i);
      DispatchAt(i, t, ec, turn);
    }

    /** A completion runs: a posted handler, or the next turn of a suspended operation. */
    method RunReady(i: nat)
      requires Valid() && i < |ready|
      modifies this`ready, this`done, this`lost, conns, Objects()
      ensures Valid() && State() == Apply(old(State()), Dispatch(i))
    {
      match ready[i]
      case Posted(_, _) => RunPosted(i);
      case Resumption(t, ec) => RunResumption(i, t, ec);
    }

    method Launch(k: nat, op: Op) returns (start: Outset, o: Option<Operation>)
      requires Distinct() && k < |conns| && ReactorOk(conns[k].Reactor())
      modifies conns[k]
      ensures Conns() == old(Conns())[k := conns[k].State()] && Reactors() == old(Reactors())[k := conns[k].Reactor()]
      ensures Issued(conns[k].State(), conns[k].Reactor(), start)
              == Issuing(old(conns[k].State()), old(conns[k].Reactor()), k, next, op)
      ensures start.Suspension? ==>
                && o.Some? && fresh(o.value.Object())
                && o.value.Carries(Task(next, k, old(conns[k].cancelationToken), op, start.phase, FINISH), conns[k])
      ensures forall u | old(Held(u)) :: Held(u)
    {
      hide Issuing;
      start, o := LaunchOperation(conns[k], k, next, op);
      OneConn(k);
    }

    /** Keeps the object of an operation under the id it is about to get. */
    method Keep(o: Operation)
      requires Distinct() && Numbered() && forall id | id in operations :: operations[id].Object() != o.Object()
      modifies this`operations
      ensures Distinct() && operations == old(operations)[next := o]
      ensures forall u | old(Held(u)) :: Held(u)
      ensures forall u: Task |
                u.id == next && u.conn < |conns| && o.Carries(u.(event := FINISH), conns[u.conn]) :: Held(u)
    {
      operations := operations[next := o];
    }

    method Record(start: Outset)
      modifies this`ready, this`done, this`lost, this`next
      ensures Conns() == old(Conns()) && Reactors() == old(Reactors())
      ensures ready == old(ready) + (match start
                                     case Refusal(ec) => [Posted(old(next), ec)]
                                     case Immediate(_, _) => []
                                     case Suspension(_, aborted, _) => Aborted(aborted))
      ensures done == old(done) + (if start.Immediate? then [Invocation(old(next), start.ec, start.rs)] else [])
      ensures lost == old(lost) + (if start.Suspension? && start.lost then [old(next)] else [])
      ensures next == old(next) + 1
      ensures forall u | old(Held(u)) :: Held(u)
    {
      match start {
        case Refusal(ec) => ready := ready + [Posted(next, ec)];
        case Immediate(ec, rs) => done := done + [Invocation(next, ec, rs)];
        case Suspension(_, aborted, gone) =>
          ready := ready + Aborted(aborted);
          if gone { lost := lost + [next]; }
      }
      next := next + 1;
    }

    /** The async_* functions: the operation is issued, and its first turn runs at once. */
    method Issue(k: nat, op: Op)
      requires Valid() && k < |conns|
      modifies this, conns[k]
      ensures Valid() && State() == Apply(old(State()), Step.Issue(k, op))
    {
      hide Pends, Issuing, IssueOp, Held, LoopOk;
      ghost var i := IssueFacts(State(), k, op);
      var start, o := Launch(k, op);
      if start.Suspension? { Keep(o.value); }
      Record(start);
    }
  }
}
