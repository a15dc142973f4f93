/**
 The worker-thread service refines sequential blocking calls, connection by
 connection: whatever the interleaving of issuing, working, delivering, and of
 everything on other connections, an operation's completion carries the result of
 the blocking call made at its turn in the issue order. Operations cancelled
 before do not interfere.
 */
module WorkerRefinement {
  import opened ErrorCodes
  import opened MysqlLibrary
  import opened ConnectionState
  import opened Ownership
  import opened WorkerService

  /** The blocking form of an operation; storing on a closed connection is refused first. */
  function Sequential(c: Conn, op: Op): Outcome {
    if op.StoreOp? && !c.initialized then Outcome(c, NOT_INITIALIZED, EMPTY_SET) else Blocking(c, op)
  }

  /** Connection `k`, found as `c` after `n` operations, once the later ones were called on it in issue order. */
  function Called(c: Conn, k: nat, n: nat, log: seq<Issued>): Conn {
    if |log| <= n then c
    else
      var before, i := Called(c, k, n, log[..|log| - 1]), log[|log| - 1];
      if i.conn == k then Sequential(before, i.op).conn else before
  }

  /** Operation `id`, issued on connection `k`, has the result its sequential call returns. */
  predicate Agrees(c: Conn, k: nat, n: nat, log: seq<Issued>, id: nat, ec: ErrorCode, rs: View) {
    id < |log| && log[id].conn == k &&
    var o := Sequential(Called(c, k, n, log[..id]), log[id].op);
    o.ec == ec && o.rs == rs
  }

  /** Connection `k` after the worker has run its queued jobs. */
  function Drained(c: Conn, k: nat, queue: seq<Job>): Conn {
    if queue == [] then c
    else
      var before, j := Drained(c, k, queue[..|queue| - 1]), queue[|queue| - 1];
      if j.conn == k then RunJob(before, j.token, j.op).conn else before
  }

  /** Running the first job now or later makes no difference. */
  lemma {:induction false} DrainedFirst(c: Conn, k: nat, queue: seq<Job>)
    requires queue != []
    ensures var j := queue[0];
            Drained(c, k, queue) == Drained(if j.conn == k then RunJob(c, j.token, j.op).conn else c, k, queue[1..])
  {
    var last := |queue| - 1;
    if last == 0 {
      assert queue[..last] == [] && queue[1..] == [];
    } else {
      DrainedFirst(c, k, queue[..last]);
      assert queue[..last][1..] == queue[1..][..last - 1];
      assert queue[..last][0] == queue[0] && queue[1..][last - 1] == queue[last];
    }
  }

  lemma {:induction false} JobFrame(c: Conn, token: nat, op: Op)
    ensures var c' := RunJob(c, token, op).conn; c'.token == c.token && c'.initialized == c.initialized
  {
  }

  /** Jobs neither open, close nor cancel, and expired ones do nothing. */
  lemma {:induction false} DrainedFrame(c: Conn, k: nat, queue: seq<Job>)
    ensures Drained(c, k, queue).token == c.token && Drained(c, k, queue).initialized == c.initialized
    ensures (forall i | 0 <= i < |queue| && queue[i].conn == k :: queue[i].token != c.token) ==>
              Drained(c, k, queue) == c
  {
    if queue != [] {
      var last := |queue| - 1;
      DrainedFrame(c, k, queue[..last]);
      JobFrame(Drained(c, k, queue[..last]), queue[last].token, queue[last].op);
    }
  }

  /** What the i-th queued job, one of connection `k`, will return. */
  function Upcoming(c: Conn, k: nat, queue: seq<Job>, i: nat): Outcome
    requires i < |queue|
  {
    RunJob(Drained(c, k, queue[..i]), queue[i].token, queue[i].op)
  }

  lemma {:induction false} UpcomingNext(c: Conn, k: nat, queue: seq<Job>, i: nat)
    requires 0 < i < |queue|
    ensures var j := queue[0];
            Upcoming(c, k, queue, i)
            == Upcoming(if j.conn == k then RunJob(c, j.token, j.op).conn else c, k, queue[1..], i - 1)
  {
    DrainedFirst(c, k, queue[..i]);
    assert queue[..i][1..] == queue[1..][..i - 1] && queue[..i][0] == queue[0];
  }

  /** A queued job of connection `k` has expired, or it is live and will agree with its sequential call. */
  predicate Due(c: Conn, queue: seq<Job>, k: nat, c0: Conn, n: nat, log: seq<Issued>, i: nat)
    requires i < |queue|
  {
    var j := queue[i];
    j.conn == k ==>
      if j.id < n then j.token < c.token
      else
        && c.initialized && j.token == c.token
        && var o := Upcoming(c, k, queue, i); Agrees(c0, k, n, log, j.id, o.ec, o.rs)
  }

  ghost predicate QueueMatches(c: Conn, queue: seq<Job>, k: nat, c0: Conn, n: nat, log: seq<Issued>) {
    && n <= |log| && Drained(c, k, queue) == Called(c0, k, n, log)
    && forall i | 0 <= i < |queue| :: Due(c, queue, k, c0, n, log, i)
  }

  predicate PostedMatch(posted: seq<Completion>, k: nat, c0: Conn, n: nat, log: seq<Issued>) {
    forall i | 0 <= i < |posted| ::
      && posted[i].id < |log|
      && (n <= posted[i].id && log[posted[i].id].conn == k ==>
            Agrees(c0, k, n, log, posted[i].id, posted[i].ec, posted[i].rs))
  }

  ghost predicate Matches(s: Service, k: nat, c0: Conn, n: nat) {
    && k < |s.conns| && QueueMatches(s.conns[k], s.queue, k, c0, n, s.log)
    && PostedMatch(s.main, k, c0, n, s.log) && PostedMatch(s.delivered, k, c0, n, s.log)
  }

  /** Steps that leave connection `k` to its operations. */
  predicate Quiet(step: Step, k: nat) {
    match step
    case Issue(_, _) => true
    case Work => true
    case Deliver => true
    case CancelAll(k') => k' != k
    case CloseConn(k') => k' != k
    case Shutdown => false
  }

  // The worker's turn.

  lemma {:induction false} WorkQueue(c: Conn, queue: seq<Job>, k: nat, c0: Conn, n: nat, log: seq<Issued>)
    requires QueueMatches(c, queue, k, c0, n, log) && queue != []
    ensures var j := queue[0];
            var o := RunJob(c, j.token, j.op);
            && QueueMatches(if j.conn == k then o.conn else c, queue[1..], k, c0, n, log)
            && (j.conn == k && n <= j.id ==> Agrees(c0, k, n, log, j.id, o.ec, o.rs))
  {
    var j := queue[0];
    var c' := if j.conn == k then RunJob(c, j.token, j.op).conn else c;
    DrainedFirst(c, k, queue);
    JobFrame(c, j.token, j.op);
    assert Due(c, queue, k, c0, n, log, 0) && queue[..0] == [];
    forall i | 0 <= i < |queue[1..]| ensures Due(c', queue[1..], k, c0, n, log, i) {
      assert Due(c, queue, k, c0, n, log, i + 1);
      UpcomingNext(c, k, queue, i + 1);
    }
  }

  lemma {:induction false} WorkMatches(s: Service, k: nat, c0: Conn, n: nat)
    requires Matches(s, k, c0, n) && s.queue != [] && s.queue[0].conn < |s.conns| && s.queue[0].id < |s.log|
    requires s.log[s.queue[0].id].conn == s.queue[0].conn
    ensures Matches(WorkOnce(s), k, c0, n)
  {
    WorkQueue(s.conns[k], s.queue, k, c0, n, s.log);
  }

  // Issuing.

  lemma {:induction false} CalledSnoc(c0: Conn, k: nat, n: nat, log: seq<Issued>, i: Issued)
    requires n <= |log|
    ensures var before := Called(c0, k, n, log);
            var o := Sequential(before, i.op);
            && Called(c0, k, n, log + [i]) == (if i.conn == k then o.conn else before)
            && (i.conn == k ==> Agrees(c0, k, n, log + [i], |log|, o.ec, o.rs))
  {
  }

  /** Later operations do not change what an operation returned. */
  lemma {:induction false} AgreesSnoc(
      c0: Conn, k: nat, n: nat, log: seq<Issued>, i: Issued, id: nat, ec: ErrorCode, rs: View)
    requires Agrees(c0, k, n, log, id, ec, rs)
    ensures Agrees(c0, k, n, log + [i], id, ec, rs)
  {
    assert (log + [i])[..id] == log[..id];
  }

  lemma {:induction false} PostedSnoc(posted: seq<Completion>, k: nat, c0: Conn, n: nat, log: seq<Issued>, i: Issued)
    requires PostedMatch(posted, k, c0, n, log)
    ensures PostedMatch(posted, k, c0, n, log + [i])
  {
    forall j | 0 <= j < |posted| && n <= posted[j].id && log[posted[j].id].conn == k
      ensures Agrees(c0, k, n, log + [i], posted[j].id, posted[j].ec, posted[j].rs)
    {
      AgreesSnoc(c0, k, n, log, i, posted[j].id, posted[j].ec, posted[j].rs);
    }
  }

  lemma {:induction false} DueSnoc(
      c: Conn, queue: seq<Job>, k: nat, c0: Conn, n: nat, log: seq<Issued>, i: Issued, at: nat)
    requires at < |queue| && Due(c, queue, k, c0, n, log, at)
    ensures Due(c, queue, k, c0, n, log + [i], at)
  {
    if queue[at].conn == k && n <= queue[at].id {
      var o := Upcoming(c, k, queue, at);
      AgreesSnoc(c0, k, n, log, i, queue[at].id, o.ec, o.rs);
    }
  }

  /** On an open connection whose token matches, the job is the blocking call. */
  lemma {:induction false} JobIsBlocking(c: Conn, op: Op)
    requires c.initialized && Offered(op)
    ensures RunJob(c, c.token, op) == Blocking(c, op) == Sequential(c, op)
  {
  }

  /** Completing open before the job is queued amounts to opening at its turn. */
  lemma {:induction false} OpenedJob(c: Conn, op: Op)
    requires op.ConnectOp?
    ensures var o := Open(c);
            if o.ec.Failed() then Sequential(c, op) == o else Sequential(c, op) == RunJob(o.conn, c.token, op)
  {
  }

  /** A closed connection has only expired jobs, so the calls made so far left it as it is. */
  lemma {:induction false} ClosedIsIdle(c: Conn, queue: seq<Job>, k: nat, c0: Conn, n: nat, log: seq<Issued>)
    requires QueueMatches(c, queue, k, c0, n, log) && !c.initialized
    ensures forall i | 0 <= i < |queue| && queue[i].conn == k :: queue[i].id < n && queue[i].token < c.token
    ensures Called(c0, k, n, log) == c
  {
    forall i | 0 <= i < |queue| && queue[i].conn == k ensures queue[i].id < n && queue[i].token < c.token {
      assert Due(c, queue, k, c0, n, log, i);
    }
    DrainedFrame(c, k, queue);
  }

  /** What happens on another connection does not concern the queue of this one. */
  lemma {:induction false} OtherIssue(c: Conn, queue: seq<Job>, k: nat, c0: Conn, n: nat, log: seq<Issued>, i: Issued)
    requires QueueMatches(c, queue, k, c0, n, log) && i.conn != k
    ensures QueueMatches(c, queue, k, c0, n, log + [i])
  {
    CalledSnoc(c0, k, n, log, i);
    forall at | 0 <= at < |queue| ensures Due(c, queue, k, c0, n, log + [i], at) {
      assert Due(c, queue, k, c0, n, log, at);
      DueSnoc(c, queue, k, c0, n, log, i, at);
    }
  }

  lemma {:induction false} AppendOther(c: Conn, queue: seq<Job>, k: nat, c0: Conn, n: nat, log: seq<Issued>, job: Job)
    requires QueueMatches(c, queue, k, c0, n, log) && job.conn != k
    ensures QueueMatches(c, queue + [job], k, c0, n, log)
  {
    AppendDrained(c, k, queue, job);
    forall at | 0 <= at < |queue + [job]| ensures Due(c, queue + [job], k, c0, n, log, at) {
      if at < |queue| {
        assert Due(c, queue, k, c0, n, log, at);
        assert (queue + [job])[..at] == queue[..at];
      }
    }
  }

  lemma {:induction false} AppendDrained(c: Conn, k: nat, queue: seq<Job>, job: Job)
    ensures var before := Drained(c, k, queue);
            && Drained(c, k, queue + [job])
               == (if job.conn == k then RunJob(before, job.token, job.op).conn else before)
            && Upcoming(c, k, queue + [job], |queue|) == RunJob(before, job.token, job.op)
  {
  }

  /** Refused on the closed connection, which stays closed as `c'`. */
  lemma {:induction false} RefusedQueue(
      c: Conn, queue: seq<Job>, k: nat, c0: Conn, n: nat, log: seq<Issued>, i: Issued, c': Conn)
    requires QueueMatches(c, queue, k, c0, n, log) && !c.initialized && i.conn == k
    requires c' == Sequential(c, i.op).conn && c'.token == c.token
    ensures QueueMatches(c', queue, k, c0, n, log + [i])
  {
    ClosedIsIdle(c, queue, k, c0, n, log);
    CalledSnoc(c0, k, n, log, i);
    DrainedFrame(c', k, queue);
  }

  /** Queued on the connection, open all along or just opened: `c` is how the job will find it. */
  lemma {:induction false} AppendOwn(c: Conn, queue: seq<Job>, k: nat, c0: Conn, n: nat, log: seq<Issued>, i: Issued)
    requires i.conn == k && c.initialized && n <= |log|
    requires RunJob(Drained(c, k, queue), c.token, i.op) == Sequential(Called(c0, k, n, log), i.op)
    requires forall at | 0 <= at < |queue| :: Due(c, queue, k, c0, n, log + [i], at)
    ensures QueueMatches(c, queue + [Job(|log|, k, c.token, i.op)], k, c0, n, log + [i])
  {
    var job := Job(|log|, k, c.token, i.op);
    AppendDrained(c, k, queue, job);
    CalledSnoc(c0, k, n, log, i);
    forall at | 0 <= at < |queue + [job]| ensures Due(c, queue + [job], k, c0, n, log + [i], at) {
      if at < |queue| {
        assert Due(c, queue, k, c0, n, log + [i], at);
        assert (queue + [job])[..at] == queue[..at];
      }
    }
  }

  lemma {:induction false} OpenQueue(c: Conn, queue: seq<Job>, k: nat, c0: Conn, n: nat, log: seq<Issued>, i: Issued)
    requires QueueMatches(c, queue, k, c0, n, log) && c.initialized && i.conn == k && Offered(i.op)
    ensures QueueMatches(c, queue + [Job(|log|, k, c.token, i.op)], k, c0, n, log + [i])
  {
    DrainedFrame(c, k, queue);
    JobIsBlocking(Drained(c, k, queue), i.op);
    forall at | 0 <= at < |queue| ensures Due(c, queue, k, c0, n, log + [i], at) {
      assert Due(c, queue, k, c0, n, log, at);
      DueSnoc(c, queue, k, c0, n, log, i, at);
    }
    AppendOwn(c, queue, k, c0, n, log, i);
  }

  lemma {:induction false} OpenedQueue(
      c: Conn, queue: seq<Job>, k: nat, c0: Conn, n: nat, log: seq<Issued>, i: Issued, c': Conn)
    requires QueueMatches(c, queue, k, c0, n, log) && !c.initialized && i.conn == k
    requires c'.initialized && c'.token == c.token && Sequential(c, i.op) == RunJob(c', c.token, i.op)
    ensures QueueMatches(c', queue + [Job(|log|, k, c.token, i.op)], k, c0, n, log + [i])
  {
    ClosedIsIdle(c, queue, k, c0, n, log);
    DrainedFrame(c', k, queue);
    AppendOwn(c', queue, k, c0, n, log, i);
  }

  lemma {:induction false} RefusedMatches(s: Service, k': nat, op: Op, c: Conn, ec: ErrorCode, k: nat, c0: Conn, n: nat)
    requires Matches(s, k, c0, n) && k' < |s.conns| && !s.conns[k'].initialized
    requires Sequential(s.conns[k'], op) == Outcome(c, ec, EMPTY_SET) && c.token == s.conns[k'].token
    ensures Matches(Refuse(s.(conns := s.conns[k' := c]), k', op, ec), k, c0, n)
  {
    var i := Issued(k', op, Fate.Refused);
    PostedSnoc(s.main, k, c0, n, s.log, i);
    PostedSnoc(s.delivered, k, c0, n, s.log, i);
    if k' == k {
      ClosedIsIdle(s.conns[k], s.queue, k, c0, n, s.log);
      CalledSnoc(c0, k, n, s.log, i);
      RefusedQueue(s.conns[k], s.queue, k, c0, n, s.log, i, c);
    } else {
      OtherIssue(s.conns[k], s.queue, k, c0, n, s.log, i);
    }
  }

  /** Queued on connection `k'`, just opened as `c` or open all along. */
  lemma {:induction false} EnqueuedMatches(s: Service, k': nat, op: Op, c: Conn, k: nat, c0: Conn, n: nat)
    requires Matches(s, k, c0, n) && s.running && k' < |s.conns| && Offered(op)
    requires c.initialized && c.token == s.conns[k'].token
    requires if s.conns[k'].initialized then c == s.conns[k'] else Sequential(s.conns[k'], op) == RunJob(c, c.token, op)
    ensures Matches(Enqueue(s.(conns := s.conns[k' := c]), k', op), k, c0, n)
  {
    var i, job := Issued(k', op, Fate.Enqueued), Job(|s.log|, k', c.token, op);
    PostedSnoc(s.main, k, c0, n, s.log, i);
    PostedSnoc(s.delivered, k, c0, n, s.log, i);
    if k' != k {
      OtherIssue(s.conns[k], s.queue, k, c0, n, s.log, i);
      AppendOther(s.conns[k], s.queue, k, c0, n, s.log + [i], job);
    } else if s.conns[k].initialized {
      OpenQueue(s.conns[k], s.queue, k, c0, n, s.log, i);
    } else {
      OpenedQueue(s.conns[k], s.queue, k, c0, n, s.log, i, c);
    }
  }

  lemma {:induction false} IssueMatches(s: Service, k': nat, op: Op, k: nat, c0: Conn, n: nat)
    requires Matches(s, k, c0, n) && s.running && k' < |s.conns| && Offered(op)
    ensures Matches(IssueOp(s, k', op), k, c0, n)
  {
    var c := s.conns[k'];
    assert s.conns[k' := c] == s.conns;
    if c.initialized {
      EnqueuedMatches(s, k', op, c, k, c0, n);
    } else if op.ConnectOp? {
      var o := Open(c);
      OpenedJob(c, op);
      if o.ec.Failed() { RefusedMatches(s, k', op, o.conn, o.ec, k, c0, n); }
      else { EnqueuedMatches(s, k', op, o.conn, k, c0, n); }
    } else {
      RefusedMatches(s, k', op, c, NOT_INITIALIZED, k, c0, n);
    }
  }

  // Runs.

  /** A queued job stands in the log under its id. */
  predicate Logged(s: Service) {
    forall i | 0 <= i < |s.queue| :: s.queue[i].id < |s.log| && s.log[s.queue[i].id].conn == s.queue[i].conn
  }

  lemma {:induction false} IssueLogged(s: Service, k: nat, op: Op)
    requires Logged(s) && k < |s.conns|
    ensures Logged(IssueOp(s, k, op))
  {
  }

  lemma {:induction false} StepLogged(s: Service, step: Step)
    requires Logged(s)
    ensures Logged(Apply(s, step))
  {
    match step
    case Issue(k, op) => if k < |s.conns| { IssueLogged(s, k, op); }
    case Work =>
    case Deliver =>
    case CancelAll(_) =>
    case CloseConn(_) =>
    case Shutdown =>
  }

  lemma {:induction false} StepMatches(s: Service, step: Step, k: nat, c0: Conn, n: nat)
    requires Matches(s, k, c0, n) && Logged(s) && s.running && Quiet(step, k)
    ensures Matches(Apply(s, step), k, c0, n) && Apply(s, step).running
  {
    match step
    case Issue(k', op) => if k' < |s.conns| && Offered(op) { IssueMatches(s, k', op, k, c0, n); }
    case Work => if s.queue != [] && s.queue[0].conn < |s.conns| { WorkMatches(s, k, c0, n); }
    case Deliver =>
      if s.main != [] {
        var posted := s.delivered + [s.main[0]];
        assert PostedMatch(posted, k, c0, n, s.log) && PostedMatch(s.main[1..], k, c0, n, s.log);
      }
    case CancelAll(_) =>
    case CloseConn(_) =>
  }

  lemma {:induction false} RunMatches(s: Service, steps: seq<Step>, k: nat, c0: Conn, n: nat)
    requires Matches(s, k, c0, n) && Logged(s) && s.running && forall i | 0 <= i < |steps| :: Quiet(steps[i], k)
    ensures Matches(Exec(s, steps), k, c0, n)
    decreases |steps|
  {
    if steps != [] {
      StepMatches(s, steps[0], k, c0, n);
      StepLogged(s, steps[0]);
      RunMatches(Apply(s, steps[0]), steps[1..], k, c0, n);
    }
  }

  /** Jobs of connection `k` that were among the first `n` operations have expired. */
  ghost predicate OldExpired(s: Service, k: nat, n: nat) {
    k < |s.conns| && n <= |s.log| &&
    forall i | 0 <= i < |s.queue| && s.queue[i].conn == k && s.queue[i].id < n :: s.queue[i].token < s.conns[k].token
  }

  /** The ids in the queue and among the completions are those of logged operations. */
  predicate Known(s: Service) {
    && Logged(s)
    && (forall i | 0 <= i < |s.main| :: s.main[i].id < |s.log|)
    && (forall i | 0 <= i < |s.delivered| :: s.delivered[i].id < |s.log|)
  }

  /**
   Refinement: take the service when every queued operation of connection `k` has
   been cancelled, or none is queued. In any run from there that leaves the
   connection alone, whatever happens to the others, each completion delivered for
   an operation issued on it carries the error code and the result set of the
   sequential blocking call, and when its jobs are done the connection is as the
   sequential calls in issue order leave it.
   */
  lemma {:induction false} RefinesSequential(s: Service, k: nat, steps: seq<Step>)
    requires s.running && Known(s) && OldExpired(s, k, |s.log|)
    requires forall i | 0 <= i < |steps| :: Quiet(steps[i], k)
    ensures var end, n, c0 := Exec(s, steps), |s.log|, s.conns[k];
            && (forall i | 0 <= i < |end.delivered| ::
                  && end.delivered[i].id < |end.log|
                  && (n <= end.delivered[i].id && end.log[end.delivered[i].id].conn == k ==>
                        Agrees(c0, k, n, end.log, end.delivered[i].id, end.delivered[i].ec, end.delivered[i].rs)))
            && k < |end.conns|
            && ((forall i | 0 <= i < |end.queue| :: end.queue[i].conn != k || end.queue[i].id < n) ==>
                  end.conns[k] == Called(c0, k, n, end.log))
  {
    var n, c0 := |s.log|, s.conns[k];
    DrainedFrame(c0, k, s.queue);
    RunMatches(s, steps, k, c0, n);
    var end := Exec(s, steps);
    if forall i | 0 <= i < |end.queue| :: end.queue[i].conn != k || end.queue[i].id < n {
      forall i | 0 <= i < |end.queue| && end.queue[i].conn == k ensures end.queue[i].token != end.conns[k].token {
        assert Due(end.conns[k], end.queue, k, c0, n, end.log, i);
      }
      DrainedFrame(end.conns[k], k, end.queue);
    }
  }

  lemma {:induction false} StepKnown(s: Service, step: Step)
    requires Known(s)
    ensures Known(Apply(s, step))
  {
    hide RunJob, Blocking, Open, FreeResult;
    StepLogged(s, step);
  }

  function Unused(conns: seq<Conn>): Service {
    Service(conns, true, false, 0, [], [], [], 0, [], [])
  }

  lemma {:induction false} RunKnown(s: Service, steps: seq<Step>)
    requires Known(s) && ServiceOk(s)
    ensures Known(Exec(s, steps)) && ServiceOk(Exec(s, steps))
    decreases |steps|
  {
    if steps != [] {
      StepKnown(s, steps[0]);
      StepOk(s, steps[0]);
      RunKnown(Apply(s, steps[0]), steps[1..]);
    }
  }

  /** Every state a service can get into is one the theorems are about. */
  lemma {:induction false} Reachable(conns: seq<Conn>, steps: seq<Step>)
    requires forall k | 0 <= k < |conns| :: Sound(conns[k])
    ensures Known(Exec(Unused(conns), steps)) && ServiceOk(Exec(Unused(conns), steps))
  {
    RunKnown(Unused(conns), steps);
  }

  /** A run without cancellation, closing or shutdown. */
  predicate Plain(step: Step) {
    step.Issue? || step.Work? || step.Deliver?
  }

  /** Connection `k` and what was delivered for its operations are as after sequential calls in issue order. */
  ghost predicate Delivered(conns: seq<Conn>, k: nat, end: Service)
    requires k < |conns|
  {
    && (forall i | 0 <= i < |end.delivered| ::
          && end.delivered[i].id < |end.log|
          && (end.log[end.delivered[i].id].conn == k ==>
                Agrees(conns[k], k, 0, end.log, end.delivered[i].id, end.delivered[i].ec, end.delivered[i].rs)))
    && (end.queue == [] ==> k < |end.conns| && end.conns[k] == Called(conns[k], k, 0, end.log))
  }

  /**
   From an unused service, in any run without cancellation, closing or shutdown,
   over any number of connections: every operation delivers what the sequential
   call at its turn in the issue order returns, and once the queue is empty every
   connection is as the sequential calls leave it.
   */
  lemma {:induction false} ServiceRefinesSequential(conns: seq<Conn>, steps: seq<Step>)
    requires forall i | 0 <= i < |steps| :: Plain(steps[i])
    ensures forall k | 0 <= k < |conns| :: Delivered(conns, k, Exec(Unused(conns), steps))
  {
    forall k | 0 <= k < |conns| ensures Delivered(conns, k, Exec(Unused(conns), steps)) {
      assert forall i | 0 <= i < |steps| :: Plain(steps[i]) ==> Quiet(steps[i], k);
      RefinesSequential(Unused(conns), k, steps);
    }
  }

  // Cancellation.

  lemma {:induction false} WorkOldExpired(s: Service, k: nat, n: nat)
    requires OldExpired(s, k, n) && s.queue != [] && s.queue[0].conn < |s.conns|
    ensures OldExpired(WorkOnce(s), k, n)
  {
  }

  lemma {:induction false} UpdateOldExpired(s: Service, k: nat, n: nat, k': nat, c: Conn)
    requires OldExpired(s, k, n) && k' < |s.conns| && c.token >= s.conns[k'].token
    ensures OldExpired(s.(conns := s.conns[k' := c]), k, n)
  {
  }

  lemma {:induction false} IssueOldExpired(s: Service, k: nat, n: nat, k': nat, op: Op)
    requires OldExpired(s, k, n) && k' < |s.conns|
    ensures OldExpired(IssueOp(s, k', op), k, n)
  {
    UpdateOldExpired(s, k, n, k', Open(s.conns[k']).conn);
  }

  lemma {:induction false} StepOldExpired(s: Service, k: nat, n: nat, step: Step)
    requires OldExpired(s, k, n)
    ensures OldExpired(Apply(s, step), k, n)
  {
    match step
    case Issue(k', op) => if k' < |s.conns| { IssueOldExpired(s, k, n, k', op); }
    case Work => if s.queue != [] && s.queue[0].conn < |s.conns| { WorkOldExpired(s, k, n); }
    case CancelAll(k') => if k' < |s.conns| { UpdateOldExpired(s, k, n, k', Cancel(s.conns[k'])); }
    case CloseConn(k') => if k' < |s.conns| { UpdateOldExpired(s, k, n, k', Close(s.conns[k'])); }
    case Deliver =>
    case Shutdown =>
  }

  lemma {:induction false} RunOldExpired(s: Service, k: nat, n: nat, steps: seq<Step>)
    requires OldExpired(s, k, n)
    ensures OldExpired(Exec(s, steps), k, n)
    decreases |steps|
  {
    if steps != [] {
      StepOldExpired(s, k, n, steps[0]);
      RunOldExpired(Apply(s, steps[0]), k, n, steps[1..]);
    }
  }

  /** Cancelling a connection, or closing an open one, expires everything queued on it. */
  lemma {:induction false} CancelExpires(s: Service, k: nat, step: Step)
    requires ServiceOk(s) && k < |s.conns|
    requires step == CancelAll(k) || (step == CloseConn(k) && s.conns[k].initialized)
    ensures OldExpired(Apply(s, step), k, |s.log|) && Apply(s, step).log == s.log
  {
  }

  /**
   However much later the worker gets to it, a job queued before the cancel or
   close leaves every connection alone and completes with operation_aborted.
   */
  lemma {:induction false} CancelledJobsAbort(s: Service, k: nat, step: Step, steps: seq<Step>)
    requires ServiceOk(s) && k < |s.conns|
    requires step == CancelAll(k) || (step == CloseConn(k) && s.conns[k].initialized)
    ensures var end := Exec(Apply(s, step), steps);
            end.queue != [] && end.queue[0].conn == k && end.queue[0].id < |s.log| ==>
            Apply(end, Work) == end.(
              queue := end.queue[1..],
              main := end.main + [Completion(end.queue[0].id, true, OPERATION_ABORTED, EMPTY_SET)])
  {
    CancelExpires(s, k, step);
    RunOldExpired(Apply(s, step), k, |s.log|, steps);
    StepOk(s, step);
    EveryRunOk(Apply(s, step), steps);
    ExpiredAborts(Exec(Apply(s, step), steps), k, |s.log|);
  }

  lemma {:induction false} ExpiredAborts(s: Service, k: nat, n: nat)
    requires LedgerOk(s) && OldExpired(s, k, n) && s.queue != [] ==> s.queue[0].conn < |s.conns|
    requires LedgerOk(s) && OldExpired(s, k, n)
    ensures s.queue != [] && s.queue[0].conn == k && s.queue[0].id < n ==>
            Apply(s, Work) == s.(queue := s.queue[1..],
                                 main := s.main + [Completion(s.queue[0].id, true, OPERATION_ABORTED, EMPTY_SET)])
  {
  }
}
