/**
 The worker-thread service as a transition system: operations issued on several
 connections are queued for one worker thread, which runs them with blocking
 calls and posts their completions to the main loop.
 */
module WorkerService {
  import opened ErrorCodes
  import opened MysqlLibrary
  import opened ConnectionState
  import opened Ownership

  datatype Job = Job(id: nat, conn: nat, token: nat, op: Op)

  /** A handler posted to the main loop, by the worker or at once when the operation was refused. */
  datatype Completion = Completion(id: nat, byWorker: bool, ec: ErrorCode, rs: View)

  datatype Fate = Enqueued | Refused | Ignored

  /** What was issued; the id of an operation is its position in the log. */
  datatype Issued = Issued(conn: nat, op: Op, fate: Fate)

  datatype Service = Service(
    conns: seq<Conn>,
    running: bool,              // work_io_service_ exists
    hasThread: bool,            // work_thread_
    alive: int,                 // threads started and not joined
    queue: seq<Job>,
    main: seq<Completion>,      // posted, not delivered
    delivered: seq<Completion>,
    work: int,                  // outstanding work of the main loop
    dropped: seq<nat>,          // queued operations destroyed by shutdown
    log: seq<Issued>)

  datatype Step =
    | Issue(k: nat, op: Op)
    | Work
    | Deliver
    | CancelAll(k: nat)
    | CloseConn(k: nat)
    | Shutdown

  /** The call operator of a queued handler; it opens nothing and checks nothing but its token. */
  function RunJob(c: Conn, token: nat, op: Op): Outcome {
    if token != c.token then Outcome(c, OPERATION_ABORTED, EMPTY_SET)
    else
      match op
      case ConnectOp(target, flags) =>
        var a := Block(c.mysql, ConnectCall(target, flags));
        Outcome(c.(mysql := a.handle, flags := flags), ErrorOf(a), EMPTY_SET)
      case QueryOp(stmt) =>
        var c1 := FreeResult(c).(firstStored := false);
        var a := Block(c1.mysql, QueryCall(stmt));
        Outcome(c1.(mysql := a.handle), ErrorOf(a), EMPTY_SET)
      case StoreOp => StoreResult(c, SUCCESS)
      case QueryResultOp(_) => Outcome(c, SUCCESS, EMPTY_SET)  // not offered by this service
  }

  predicate Offered(op: Op) {
    !op.QueryResultOp?
  }

  function Log(s: Service, k: nat, op: Op, fate: Fate): Service {
    s.(log := s.log + [Issued(k, op, fate)])
  }

  function Refuse(s: Service, k: nat, op: Op, ec: ErrorCode): Service {
    Log(s, k, op, Refused).(main := s.main + [Completion(|s.log|, false, ec, EMPTY_SET)], work := s.work + 1)
  }

  /** start_work_thread, then the job is queued; its handler holds work on the main loop. */
  function Enqueue(s: Service, k: nat, op: Op): Service
    requires k < |s.conns|
  {
    if !s.running then Log(s, k, op, Ignored)
    else
      Log(s, k, op, Enqueued).(
        hasThread := true, alive := if s.hasThread then s.alive else s.alive + 1,
        queue := s.queue + [Job(|s.log|, k, s.conns[k].token, op)], work := s.work + 1)
  }

  function IssueOp(s: Service, k: nat, op: Op): Service
    requires k < |s.conns|
  {
    var c := s.conns[k];
    if op.ConnectOp? then
      var o := Open(c);
      var s1 := s.(conns := s.conns[k := o.conn]);
      if o.ec.Failed() then Refuse(s1, k, op, o.ec) else Enqueue(s1, k, op)
    else if !c.initialized then Refuse(s, k, op, NOT_INITIALIZED)
    else Enqueue(s, k, op)
  }

  /** The worker takes the first job, runs it and posts its completion. */
  function WorkOnce(s: Service): Service
    requires s.queue != [] && s.queue[0].conn < |s.conns|
  {
    var job := s.queue[0];
    var o := RunJob(s.conns[job.conn], job.token, job.op);
    s.(conns := s.conns[job.conn := o.conn], queue := s.queue[1..],
       main := s.main + [Completion(job.id, true, o.ec, o.rs)])
  }

  function Apply(s: Service, step: Step): Service {
    match step
    case Issue(k, op) => if k < |s.conns| && Offered(op) then IssueOp(s, k, op) else s
    case Work =>
      if s.running && s.hasThread && s.queue != [] && s.queue[0].conn < |s.conns| then WorkOnce(s) else s
    case Deliver =>
      if s.main != [] then s.(main := s.main[1..], delivered := s.delivered + [s.main[0]], work := s.work - 1) else s
    case CancelAll(k) => if k < |s.conns| then s.(conns := s.conns[k := Cancel(s.conns[k])]) else s
    case CloseConn(k) =>
      if k < |s.conns| && s.conns[k].initialized then s.(conns := s.conns[k := Close(s.conns[k])]) else s
    case Shutdown =>
      if s.running then
        s.(running := false, hasThread := false, alive := if s.hasThread then s.alive - 1 else s.alive,
           queue := [], dropped := s.dropped + JobIds(s.queue), work := s.work - |s.queue|)
      else s
  }

  function Exec(s: Service, steps: seq<Step>): Service
    decreases |steps|
  {
    if steps == [] then s else Exec(Apply(s, steps[0]), steps[1..])
  }

  // Safety.

  function JobIds(queue: seq<Job>): seq<nat> {
    seq(|queue|, i requires 0 <= i < |queue| => queue[i].id)
  }

  /** The operations of the log that met `fate`, by id, in issue order. */
  function Fated(log: seq<Issued>, fate: Fate): seq<nat> {
    if log == [] then []
    else
      var last := |log| - 1;
      Fated(log[..last], fate) + if log[last].fate == fate then [last] else []
  }

  /** The completions posted by the worker, or those of refused operations, in posting order. */
  function PostedIds(posted: seq<Completion>, byWorker: bool): seq<nat> {
    if posted == [] then []
    else
      var last := |posted| - 1;
      PostedIds(posted[..last], byWorker) + if posted[last].byWorker == byWorker then [posted[last].id] else []
  }

  predicate LedgerOk(s: Service) {
    // One thread at most; it exists once something was queued, until shutdown.
    && s.alive == (if s.hasThread then 1 else 0) && (s.hasThread ==> s.running)
    && (s.queue != [] ==> s.hasThread)
    // What the worker posted, then the queue, then what shutdown dropped, is the issue order.
    && PostedIds(s.delivered + s.main, true) + JobIds(s.queue) + s.dropped == Fated(s.log, Enqueued)
    && PostedIds(s.delivered + s.main, false) == Fated(s.log, Refused)
    // Before shutdown nothing is dropped or ignored.
    && (s.running ==> s.dropped == [] && Fated(s.log, Ignored) == [])
    // Every undelivered operation holds work on the main loop.
    && s.work == |s.queue| + |s.main|
  }

  ghost predicate ConnsOk(s: Service) {
    && (forall i | 0 <= i < |s.queue| :: JobOk(s, s.queue[i]))
    && (forall k | 0 <= k < |s.conns| :: Sound(s.conns[k]))
  }

  ghost predicate ServiceOk(s: Service) {
    LedgerOk(s) && ConnsOk(s)
  }

  /** A job is never ahead of its connection, and one that has not expired finds it open. */
  predicate JobOk(s: Service, j: Job) {
    && j.conn < |s.conns| && j.token <= s.conns[j.conn].token && Offered(j.op)
    && (j.token == s.conns[j.conn].token ==> s.conns[j.conn].initialized)
  }

  lemma {:induction false} PostedSnoc(posted: seq<Completion>, c: Completion, byWorker: bool)
    ensures PostedIds(posted + [c], byWorker)
            == PostedIds(posted, byWorker) + if c.byWorker == byWorker then [c.id] else []
  {
  }

  lemma {:induction false} FatedSnoc(log: seq<Issued>, i: Issued, fate: Fate)
    ensures Fated(log + [i], fate) == Fated(log, fate) + if i.fate == fate then [|log|] else []
  {
  }

  lemma {:induction false} RunJobSound(c: Conn, token: nat, op: Op)
    requires Sound(c) && (token == c.token ==> c.initialized) && Offered(op)
    ensures var c' := RunJob(c, token, op).conn;
            Sound(c') && c'.token == c.token && (c.initialized ==> c'.initialized)
    ensures token == c.token ==> RunJob(c, token, op) == Blocking(c, op)
  {
    if token == c.token { BlockingSound(c, op); }
  }

  lemma {:induction false} EnqueueLedger(s: Service, k: nat, op: Op)
    requires LedgerOk(s) && k < |s.conns|
    ensures LedgerOk(Enqueue(s, k, op))
  {
    var fate := if s.running then Enqueued else Ignored;
    var i := Issued(k, op, fate);
    FatedSnoc(s.log, i, Enqueued);
    FatedSnoc(s.log, i, Refused);
    FatedSnoc(s.log, i, Ignored);
    if s.running {
      assert JobIds(s.queue + [Job(|s.log|, k, s.conns[k].token, op)]) == JobIds(s.queue) + [|s.log|];
    }
  }

  lemma {:induction false} EnqueueOk(s: Service, k: nat, op: Op)
    requires ServiceOk(s) && k < |s.conns| && s.conns[k].initialized && Offered(op)
    ensures ServiceOk(Enqueue(s, k, op))
  {
    EnqueueLedger(s, k, op);
  }

  lemma {:induction false} RefuseOk(s: Service, k: nat, op: Op, ec: ErrorCode)
    requires ServiceOk(s)
    ensures ServiceOk(Refuse(s, k, op, ec))
  {
    RefuseLedger(s, k, op, ec);
  }

  lemma {:induction false} RefuseLedger(s: Service, k: nat, op: Op, ec: ErrorCode)
    requires LedgerOk(s)
    ensures LedgerOk(Refuse(s, k, op, ec))
  {
    var i := Issued(k, op, Refused);
    FatedSnoc(s.log, i, Enqueued);
    FatedSnoc(s.log, i, Refused);
    FatedSnoc(s.log, i, Ignored);
    var c := Completion(|s.log|, false, ec, EMPTY_SET);
    PostedNext(s.delivered, s.main, c, true);
    PostedNext(s.delivered, s.main, c, false);
  }

  lemma {:induction false} UpdateOk(s: Service, k: nat, c: Conn)
    requires ServiceOk(s) && k < |s.conns| && Sound(c)
    requires c.token >= s.conns[k].token
    requires c.token == s.conns[k].token && s.conns[k].initialized ==> c.initialized
    ensures ServiceOk(s.(conns := s.conns[k := c]))
  {
  }

  lemma {:induction false} IssueOk(s: Service, k: nat, op: Op)
    requires ServiceOk(s) && k < |s.conns| && Offered(op)
    ensures ServiceOk(IssueOp(s, k, op))
  {
    if op.ConnectOp? {
      var o := Open(s.conns[k]);
      UpdateOk(s, k, o.conn);
      var s1 := s.(conns := s.conns[k := o.conn]);
      if o.ec.Failed() { RefuseOk(s1, k, op, o.ec); } else { EnqueueOk(s1, k, op); }
    } else if !s.conns[k].initialized {
      RefuseOk(s, k, op, NOT_INITIALIZED);
    } else {
      EnqueueOk(s, k, op);
    }
  }

  /** What is queued can be run. */
  lemma {:induction false} WorkEnabled(s: Service)
    requires ServiceOk(s) && s.queue != []
    ensures s.running && s.hasThread && s.queue[0].conn < |s.conns| && Offered(s.queue[0].op)
    ensures Apply(s, Work) == WorkOnce(s)
  {
    assert JobOk(s, s.queue[0]);
  }

  lemma {:induction false} WorkOk(s: Service)
    requires ServiceOk(s) && s.queue != []
    ensures s.queue[0].conn < |s.conns| && ServiceOk(WorkOnce(s))
  {
    var job := s.queue[0];
    assert JobOk(s, job);
    var o := RunJob(s.conns[job.conn], job.token, job.op);
    RunJobSound(s.conns[job.conn], job.token, job.op);
    UpdateOk(s, job.conn, o.conn);
    PostOk(s.(conns := s.conns[job.conn := o.conn]), o.ec, o.rs);
  }

  /** The first job leaves the queue and its completion joins those of the main loop. */
  lemma {:induction false} PostOk(s: Service, ec: ErrorCode, rs: View)
    requires ServiceOk(s) && s.queue != []
    ensures ServiceOk(s.(queue := s.queue[1..], main := s.main + [Completion(s.queue[0].id, true, ec, rs)]))
  {
    PostLedger(s, Completion(s.queue[0].id, true, ec, rs));
  }

  lemma {:induction false} Shift(p: seq<nat>, id: nat, q: seq<nat>, d: seq<nat>)
    ensures (p + [id]) + q + d == p + ([id] + q) + d
  {
  }

  lemma {:induction false} PostedNext(delivered: seq<Completion>, main: seq<Completion>, c: Completion, byWorker: bool)
    ensures PostedIds(delivered + (main + [c]), byWorker)
            == PostedIds(delivered + main, byWorker) + if c.byWorker == byWorker then [c.id] else []
  {
    assert delivered + (main + [c]) == (delivered + main) + [c];
    PostedSnoc(delivered + main, c, byWorker);
  }

  lemma {:induction false} PostLedger(s: Service, c: Completion)
    requires LedgerOk(s) && s.queue != [] && c.byWorker && c.id == s.queue[0].id
    ensures LedgerOk(s.(queue := s.queue[1..], main := s.main + [c]))
  {
    PostedNext(s.delivered, s.main, c, true);
    PostedNext(s.delivered, s.main, c, false);
    assert JobIds(s.queue) == [c.id] + JobIds(s.queue[1..]);
    Shift(PostedIds(s.delivered + s.main, true), c.id, JobIds(s.queue[1..]), s.dropped);
  }

  lemma {:induction false} DeliverOk(s: Service)
    requires ServiceOk(s)
    ensures ServiceOk(Apply(s, Deliver))
  {
    if s.main != [] { assert (s.delivered + [s.main[0]]) + s.main[1..] == s.delivered + s.main; }
  }

  lemma {:induction false} ShutdownOk(s: Service)
    requires ServiceOk(s)
    ensures ServiceOk(Apply(s, Shutdown))
  {
  }

  lemma {:induction false} IssueStepOk(s: Service, k: nat, op: Op)
    requires ServiceOk(s)
    ensures ServiceOk(Apply(s, Issue(k, op)))
  {
    if k < |s.conns| && Offered(op) { IssueOk(s, k, op); }
  }

  lemma {:induction false} WorkStepOk(s: Service)
    requires ServiceOk(s)
    ensures ServiceOk(Apply(s, Work))
  {
    if s.queue != [] { WorkOk(s); }
  }

  lemma {:induction false} CancelOk(s: Service, k: nat)
    requires ServiceOk(s)
    ensures ServiceOk(Apply(s, CancelAll(k)))
  {
    if k < |s.conns| { UpdateOk(s, k, Cancel(s.conns[k])); }
  }

  lemma {:induction false} CloseOk(s: Service, k: nat)
    requires ServiceOk(s)
    ensures ServiceOk(Apply(s, CloseConn(k)))
  {
    if k < |s.conns| && s.conns[k].initialized {
      CloseFreesAll(s.conns[k]);
      UpdateOk(s, k, Close(s.conns[k]));
    }
  }

  lemma {:induction false} StepOk(s: Service, step: Step)
    requires ServiceOk(s)
    ensures ServiceOk(Apply(s, step))
  {
    hide ServiceOk, Apply;
    match step
    case Issue(k, op) => IssueStepOk(s, k, op);
    case Work => WorkStepOk(s);
    case Deliver => DeliverOk(s);
    case CancelAll(k) => CancelOk(s, k);
    case CloseConn(k) => CloseOk(s, k);
    case Shutdown => ShutdownOk(s);
  }

  lemma {:induction false} EveryRunOk(s: Service, steps: seq<Step>)
    requires ServiceOk(s)
    ensures ServiceOk(Exec(s, steps))
    decreases |steps|
  {
    if steps != [] {
      StepOk(s, steps[0]);
      EveryRunOk(Apply(s, steps[0]), steps[1..]);
    }
  }

  predicate Increasing(ids: seq<nat>) {
    forall i, j | 0 <= i < j < |ids| :: ids[i] < ids[j]
  }

  lemma {:induction false} FatedIncreases(log: seq<Issued>, fate: Fate)
    ensures Increasing(Fated(log, fate))
    ensures forall id | id in Fated(log, fate) :: id < |log| && log[id].fate == fate
  {
    if log != [] {
      var last := |log| - 1;
      FatedIncreases(log[..last], fate);
      var before := Fated(log[..last], fate);
      assert forall i | 0 <= i < |before| :: before[i] in before;
      forall id | id in before ensures id < |log| && log[id].fate == fate {
        assert log[..last][id] == log[id];
      }
    }
  }

  /**
   Safety of every run: one thread at most; the worker's completions are posted
   in issue order, each operation's at most once; while the service is running
   nothing is lost; and whatever is undelivered keeps the main loop busy.
   */
  lemma {:induction false} FifoSafety(s: Service, steps: seq<Step>)
    requires ServiceOk(s)
    ensures var end := Exec(s, steps);
            var posted := PostedIds(end.delivered + end.main, true);
            && 0 <= end.alive <= 1
            && Increasing(posted)
            && (end.running ==> posted + JobIds(end.queue) == Fated(end.log, Enqueued) && Fated(end.log, Ignored) == [])
            && (end.queue != [] || end.main != [] ==> end.work > 0)
  {
    EveryRunOk(s, steps);
    var end := Exec(s, steps);
    FatedIncreases(end.log, Enqueued);
    var posted := PostedIds(end.delivered + end.main, true);
    var ids := Fated(end.log, Enqueued);
    assert posted + JobIds(end.queue) + [] == posted + JobIds(end.queue);
    forall i, j | 0 <= i < j < |posted| ensures posted[i] < posted[j] {
      assert (posted + JobIds(end.queue) + end.dropped)[i] == ids[i] == posted[i];
      assert (posted + JobIds(end.queue) + end.dropped)[j] == ids[j] == posted[j];
    }
  }
}
