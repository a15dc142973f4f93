/**
 The worker-thread service as an object: its queue, its thread and the main loop
 are updated in place, and each method is proved to be one step of WorkerService.
 */
module MysqlServices {
  import opened ErrorCodes
  import opened MysqlLibrary
  import opened ConnectionState
  import opened Connector
  import Ownership
  import opened WorkerService

  /** The call operator of connect_handler. */
  method ConnectJob(conn: Connection, token: nat, target: Target, flags: Flags) returns (ec: ErrorCode)
    modifies conn
    ensures Outcome(conn.State(), ec, EMPTY_SET) == RunJob(old(conn.State()), token, ConnectOp(target, flags))
    ensures conn.Reactor() == old(conn.Reactor())
  {
    if token != conn.cancelationToken {
      return OPERATION_ABORTED;
    }
    var _, e := conn.Call(ConnectCall(target, flags));
    ec := e;
    conn.flags := flags;
  }

  /** The call operator of query_handler. */
  method QueryJob(conn: Connection, token: nat, stmt: string) returns (ec: ErrorCode)
    modifies conn
    ensures Outcome(conn.State(), ec, EMPTY_SET) == RunJob(old(conn.State()), token, QueryOp(stmt))
    ensures conn.Reactor() == old(conn.Reactor())
  {
    if token != conn.cancelationToken {
      return OPERATION_ABORTED;
    }
    conn.FreeResult();
    conn.firstResultStored := false;
    var _, e := conn.Call(QueryCall(stmt));
    ec := e;
  }

  /** The call operator of store_result_handler. */
  method StoreResultJob(conn: Connection, token: nat) returns (ec: ErrorCode, rs: ResultSet)
    modifies conn
    ensures fresh(rs) && Outcome(conn.State(), ec, rs.View()) == RunJob(old(conn.State()), token, StoreOp)
    ensures conn.Reactor() == old(conn.Reactor())
  {
    if token != conn.cancelationToken {
      ec := OPERATION_ABORTED;
      rs := new ResultSet.EmptySet(conn);
      return;
    }
    ec := SUCCESS;
    if conn.firstResultStored {
      conn.FreeResult();
      if !conn.HasMoreResults() {
        ec := NO_MORE_RESULTS;
      } else {
        var _, e := conn.Call(NextCall);
        ec := e;
      }
    } else {
      conn.firstResultStored := true;
    }
    if ec.Failed() {
      rs := new ResultSet.EmptySet(conn);
      return;
    }
    rs, ec := conn.StoreCurrent();
  }

  class MysqlService {
    const conns: seq<Connection>
    var workIoService: bool
    var workThread: bool
    var threadsAlive: int
    var queue: seq<Job>
    var main: seq<Completion>
    var delivered: seq<Completion>
    var work: int
    ghost var dropped: seq<nat>
    var log: seq<Issued>

    constructor (conns: seq<Connection>)
      requires forall i, j | 0 <= i < j < |conns| :: conns[i] != conns[j]
      requires forall i | 0 <= i < |conns| :: Ownership.Sound(conns[i].State())
      ensures this.conns == conns && Valid()
      ensures State() == Service(States(), true, false, 0, [], [], [], 0, [], [])
    {
      this.conns := conns;
      workIoService, workThread, threadsAlive := true, false, 0;
      queue, main, delivered, work, dropped, log := [], [], [], 0, [], [];
    }

    ghost predicate Distinct() {
      forall i, j | 0 <= i < j < |conns| :: conns[i] != conns[j]
    }

    /** The service is as every run leaves it. */
    ghost predicate Valid()
      reads this, conns
    {
      Distinct() && ServiceOk(State())
    }

    ghost function States(): seq<Conn>
      reads conns
    {
      seq(|conns|, i requires 0 <= i < |conns| reads conns => conns[i].State())
    }

    ghost function State(): Service
      reads this, conns
    {
      Service(States(), workIoService, workThread, threadsAlive, queue, main, delivered, work, dropped, log)
    }

    /** Starts the thread unless there is one. */
    method StartWorkThread()
      modifies this`workThread, this`threadsAlive
      ensures workThread && threadsAlive == if old(workThread) then old(threadsAlive) else old(threadsAlive) + 1
    {
      if !workThread {
        workThread := true;
        threadsAlive := threadsAlive + 1;
      }
    }

    /** One connection updated in place is one element of the states. */
    twostate lemma OneConn(k: nat)
      requires Distinct() && k < |conns|
      requires forall i | 0 <= i < |conns| && i != k :: unchanged(conns[i])
      ensures States() == old(States())[k := conns[k].State()]
    {
    }

    method StopWork()
      modifies this
      ensures State() == Apply(old(State()), Shutdown)
    {
      if workIoService {
        if workThread {
          threadsAlive := threadsAlive - 1;
          workThread := false;
        }
        workIoService := false;
        work := work - |queue|;
        dropped, queue := dropped + JobIds(queue), [];
      }
    }

    /**
     Stops the worker, joins its thread and destroys what is still queued. A job
     the worker is in the middle of is finished first: the join waits for it.
     */
    method ShutdownService(busy: bool)
      requires Valid()
      modifies this, conns
      ensures Valid()
      ensures State() == Apply(if busy then Apply(old(State()), Work) else old(State()), Shutdown)
    {
      hide ServiceOk;
      if busy && queue != [] { RunOne(); }
      StepOk(State(), Shutdown);
      StopWork();
    }

    /** cancel and close of the service are those of the connection; a closed one is not closed again. */
    method Cancel(k: nat)
      requires Valid() && k < |conns|
      modifies conns[k]
      ensures Valid() && State() == Apply(old(State()), CancelAll(k))
    {
      hide ServiceOk;
      StepOk(State(), CancelAll(k));
      conns[k].Cancel();
      OneConn(k);
    }

    method Close(k: nat)
      requires Valid() && k < |conns|
      modifies conns[k]
      ensures Valid() && State() == Apply(old(State()), CloseConn(k))
    {
      hide ServiceOk;
      StepOk(State(), CloseConn(k));
      if conns[k].initialized {
        var _ := conns[k].Close();
        OneConn(k);
      }
    }

    method PostRefusal(k: nat, op: Op, ec: ErrorCode)
      modifies this`main, this`work, this`log
      ensures State() == Refuse(old(State()), k, op, ec)
    {
      main := main + [Completion(|log|, false, ec, EMPTY_SET)];
      work := work + 1;
      log := log + [Issued(k, op, Refused)];
    }

    method PostJob(k: nat, op: Op)
      requires k < |conns|
      modifies this
      ensures State() == Enqueue(old(State()), k, op)
    {
      if workIoService {
        StartWorkThread();
        queue := queue + [Job(|log|, k, conns[k].cancelationToken, op)];
        work := work + 1;
        log := log + [Issued(k, op, Enqueued)];
      } else {
        log := log + [Issued(k, op, Ignored)];
      }
    }

    method AsyncConnect(k: nat, target: Target, flags: Flags)
      requires Valid() && k < |conns|
      modifies this, conns[k]
      ensures Valid() && State() == Apply(old(State()), Issue(k, ConnectOp(target, flags)))
    {
      hide ServiceOk;
      StepOk(State(), Issue(k, ConnectOp(target, flags)));
      if !conns[k].initialized {
        var ec := conns[k].Open();
        OneConn(k);
        if ec.Failed() {
          PostRefusal(k, ConnectOp(target, flags), ec);
          return;
        }
      } else {
        assert old(States()) == old(States())[k := conns[k].State()];
      }
      PostJob(k, ConnectOp(target, flags));
    }

    method AsyncQuery(k: nat, stmt: string)
      requires Valid() && k < |conns|
      modifies this
      ensures Valid() && State() == Apply(old(State()), Issue(k, QueryOp(stmt)))
    {
      hide ServiceOk;
      StepOk(State(), Issue(k, QueryOp(stmt)));
      if !conns[k].initialized {
        PostRefusal(k, QueryOp(stmt), NOT_INITIALIZED);
      } else {
        PostJob(k, QueryOp(stmt));
      }
    }

    method AsyncStoreResult(k: nat)
      requires Valid() && k < |conns|
      modifies this
      ensures Valid() && State() == Apply(old(State()), Issue(k, StoreOp))
    {
      hide ServiceOk;
      StepOk(State(), Issue(k, StoreOp));
      if !conns[k].initialized {
        PostRefusal(k, StoreOp, NOT_INITIALIZED);
      } else {
        PostJob(k, StoreOp);
      }
    }

    /** The call operator of a queued handler, on its connection. */
    method RunHandler(job: Job) returns (ec: ErrorCode, rs: View)
      requires Distinct() && job.conn < |conns| && Offered(job.op)
      modifies conns[job.conn]
      ensures var o := RunJob(old(conns[job.conn].State()), job.token, job.op);
              ec == o.ec && rs == o.rs && States() == old(States())[job.conn := o.conn]
      ensures unchanged(this)
    {
      rs := EMPTY_SET;
      match job.op {
        case ConnectOp(target, flags) => ec := ConnectJob(conns[job.conn], job.token, target, flags);
        case QueryOp(stmt) => ec := QueryJob(conns[job.conn], job.token, stmt);
        case StoreOp =>
          var e, r := StoreResultJob(conns[job.conn], job.token);
          ec, rs := e, r.View();
      }
      OneConn(job.conn);
    }

    /** One turn of the worker: the first queued handler runs and posts its completion. */
    method RunOne()
      requires Valid() && queue != []
      modifies this, conns
      ensures Valid() && State() == Apply(old(State()), Work)
    {
      hide ServiceOk, RunJob;
      WorkEnabled(State());
      StepOk(State(), Work);
      var job := queue[0];
      var ec, rs := RunHandler(job);
      queue := queue[1..];
      main := main + [Completion(job.id, true, ec, rs)];
    }

    /** One turn of the main loop. */
    method DeliverOne()
      requires Valid() && main != []
      modifies this
      ensures Valid() && State() == Apply(old(State()), Deliver)
    {
      hide ServiceOk;
      StepOk(State(), Deliver);
      delivered := delivered + [main[0]];
      main := main[1..];
      work := work - 1;
    }
  }
}
