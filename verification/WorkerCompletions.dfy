/**
 What the completions of the worker-thread service carry and in which order they
 arrive: refusals, completions in posting order, and nothing after a shutdown.
 */
module WorkerCompletions {
  import opened ErrorCodes
  import opened MysqlLibrary
  import opened ConnectionState
  import opened WorkerService
  import opened BlockingAnswers

  /** The error with which issuing `op` on `c` is refused, if it is; told from the library alone. */
  predicate RefusedWith(c: Conn, op: Op, ec: ErrorCode) {
    !c.initialized &&
    if op.ConnectOp? then !c.mysql.server.init(c.mysql.calls) && ec == INITIALIZATION_ERROR
    else ec == NOT_INITIALIZED
  }

  /** A refused operation posts its error with an empty set, and holds work until that is delivered. */
  lemma {:induction false} RefusalPosts(s: Service, k: nat, op: Op, ec: ErrorCode)
    requires k < |s.conns| && Offered(op) && RefusedWith(s.conns[k], op, ec)
    ensures var s' := Apply(s, Issue(k, op));
            && s' == s.(conns := s'.conns, main := s.main + [Completion(|s.log|, false, ec, EMPTY_SET)],
                        work := s.work + 1, log := s.log + [Issued(k, op, Refused)])
            && (!op.ConnectOp? ==> s'.conns == s.conns)
  {
    OpenAnswers(s.conns[k]);
  }

  /**
   An operation that is not refused goes to the end of the queue with the token of
   that moment, or is forgotten if the service was shut down.
   */
  lemma {:induction false} AcceptanceQueues(s: Service, k: nat, op: Op)
    requires k < |s.conns| && Offered(op)
    requires if op.ConnectOp? then s.conns[k].initialized || s.conns[k].mysql.server.init(s.conns[k].mysql.calls)
             else s.conns[k].initialized
    ensures var s' := Apply(s, Issue(k, op));
            && s'.main == s.main && s'.delivered == s.delivered
            && if s.running then
                 && s'.queue == s.queue + [Job(|s.log|, k, s.conns[k].token, op)]
                 && s'.log == s.log + [Issued(k, op, Enqueued)] && s'.hasThread && s'.work == s.work + 1
               else
                 s'.queue == s.queue && s'.log == s.log + [Issued(k, op, Ignored)] && s'.work == s.work
  {
    OpenAnswers(s.conns[k]);
  }

  /** Shutdown completes nothing: what is queued is dropped, what is posted stays to be delivered. */
  lemma {:induction false} ShutdownDrops(s: Service)
    requires s.running
    ensures var s' := Apply(s, Shutdown);
            && !s'.running && !s'.hasThread && s'.queue == [] && s'.dropped == s.dropped + JobIds(s.queue)
            && s'.main == s.main && s'.delivered == s.delivered && s'.conns == s.conns && s'.log == s.log
            && s'.work == s.work - |s.queue| && Apply(s', Shutdown) == s' && Apply(s', Work) == s'
  {
  }

  /** Cancelling changes a token and nothing else; closing a closed connection changes nothing. */
  lemma {:induction false} CancelOnlyExpires(s: Service, k: nat)
    requires k < |s.conns|
    ensures var s' := Apply(s, CancelAll(k));
            && s' == s.(conns := s'.conns) && |s'.conns| == |s.conns| && s'.conns[k].token > s.conns[k].token
            && s'.conns[k].(token := s.conns[k].token) == s.conns[k]
            && (forall j | 0 <= j < |s.conns| && j != k :: s'.conns[j] == s.conns[j])
    ensures !s.conns[k].initialized ==> Apply(s, CloseConn(k)) == s
  {
  }

  // Order.

  /** What was posted so far is delivered in that order, before anything posted later. */
  lemma {:induction false} StepKeepsOrder(s: Service, step: Step)
    ensures var s' := Apply(s, step);
            s.delivered + s.main <= s'.delivered + s'.main && s.delivered <= s'.delivered
  {
    if step.Deliver? && s.main != [] {
      assert (s.delivered + [s.main[0]]) + s.main[1..] == s.delivered + s.main;
    }
  }

  /** The main loop runs the handlers in the order in which their completions were posted. */
  lemma {:induction false} DeliveredInOrder(s: Service, steps: seq<Step>)
    ensures var end := Exec(s, steps);
            s.delivered + s.main <= end.delivered + end.main && s.delivered <= end.delivered
    decreases |steps|
  {
    if steps != [] {
      StepKeepsOrder(s, steps[0]);
      DeliveredInOrder(Apply(s, steps[0]), steps[1..]);
    }
  }
}
