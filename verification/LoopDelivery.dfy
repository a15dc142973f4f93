/**
 An operation issued on a connection whose other operations have all been
 cancelled, and left alone, delivers the outcome of its blocking form: whatever
 the suspension schedule, the order in which completions run, the late arrival of
 the cancelled operations, and everything that happens on other connections.
 */
module LoopDelivery {
  import opened ErrorCodes
  import opened MysqlLibrary
  import opened ConnectionState
  import opened ComposedOps
  import opened Ownership
  import opened Reactors
  import opened EventLoop
  import opened LoopSafety
  import opened LoopProgress
  import opened LoopIsolation

  /** Where the watched operation is. */
  datatype Whereabouts = Waiting | AtReady(i: nat) | Delivered

  /** Resumed until it completes, with waits that succeed, the operation of `t` ends with `out`. */
  ghost predicate Heading(c: Conn, t: Task, out: Outcome) {
    t.token == c.token &&
    var run := Drive(Resume(c, t.op, t.phase, t.token, SUCCESS), t.op);
    run.Completed? && run.out == out
  }

  /** A pending resumption on connection `k` other than the watched one has expired. */
  predicate Expired(c: Conn, k: nat, r: Ready) {
    r.Resumption? && r.task.conn == k ==> r.task.token != c.token
  }

  ghost predicate Watched(l: Loop, k: nat, id: nat, out: Outcome, at: Whereabouts) {
    && k < |l.conns| == |l.reactors|
    && (forall i | 0 <= i < |l.ready| && at != AtReady(i) :: Expired(l.conns[k], k, l.ready[i]))
    && (at != Waiting ==>
          forall i | 0 <= i < |Waits(l.reactors[k])| :: Waits(l.reactors[k])[i].token != l.conns[k].token)
    && match at
       case Waiting =>
         && |Waits(l.reactors[k])| == 1 && Waits(l.reactors[k])[0].id == id
         && Heading(l.conns[k], Waits(l.reactors[k])[0], out)
       case AtReady(i) =>
         && i < |l.ready| && l.ready[i].Resumption? && l.ready[i].ec == SUCCESS
         && l.ready[i].task.id == id && l.ready[i].task.conn == k && Heading(l.conns[k], l.ready[i].task, out)
       case Delivered =>
         l.conns[k] == out.conn && Invocation(id, out.ec, out.rs) in l.done
  }

  /** The steps that leave connection `k` to the watched operation; its waits succeed. */
  predicate Quiet(s: Step, k: nat) {
    match s
    case Issue(k', _) => k' != k
    case Fire(k', _, ec) => k' == k ==> ec == SUCCESS
    case Dispatch(_) => true
    case CancelAll(k') => k' != k
    case CloseConn(k') => k' != k
    case CallBlocking(k', _) => k' != k
  }

  /** A step on other connections appends completions of other connections only. */
  lemma {:induction false} Elsewhere(l: Loop, l': Loop, k: nat, id: nat, out: Outcome, at: Whereabouts)
    requires Watched(l, k, id, out, at) && |l'.conns| == |l'.reactors| == |l.conns|
    requires l'.conns[k] == l.conns[k] && l'.reactors[k] == l.reactors[k]
    requires |l.ready| <= |l'.ready| && l'.ready[..|l.ready|] == l.ready
    requires forall i | |l.ready| <= i < |l'.ready| :: l'.ready[i].Posted? || l'.ready[i].task.conn != k
    requires forall inv | inv in l.done :: inv in l'.done
    ensures Watched(l', k, id, out, at)
  {
  }

  lemma {:induction false} PlaceElsewhere(
      l: Loop, k': nat, id': nat, op: Op, token: nat, turn: Turn, k: nat, id: nat, out: Outcome,
      at: Whereabouts)
    requires k' < |l.conns| == |l.reactors| && Homed(l.reactors[k'], k') && k' != k && Watched(l, k, id, out, at)
    ensures Watched(Place(l, k', id', op, token, turn), k, id, out, at)
  {
  }

  /** The operation's own turn: it finishes with its outcome, or waits again on its way to it. */
  lemma {:induction false} OwnTurn(l: Loop, k: nat, id: nat, op: Op, turn: Turn, out: Outcome) returns (at: Whereabouts)
    requires Shape(l) && k < |l.conns| && turn.Conn().token == l.conns[k].token
    requires forall i | 0 <= i < |l.ready| :: Expired(l.conns[k], k, l.ready[i])
    requires forall i | 0 <= i < |Waits(l.reactors[k])| :: Waits(l.reactors[k])[i].token != l.conns[k].token
    requires Drive(turn, op).Completed? && Drive(turn, op).out == out
    ensures Watched(Place(l, k, id, op, l.conns[k].token, turn), k, id, out, at)
  {
    var l' := Place(l, k, id, op, l.conns[k].token, turn);
    if turn.Invoke? {
      at := Delivered;
      assert l'.done[|l.done|] == Invocation(id, out.ec, out.rs);
    } else {
      at := Waiting;
      assert forall i | |l.ready| <= i < |l'.ready| ::
          l'.ready[i].Resumption? && l'.ready[i].task in Waits(l.reactors[k]);
    }
  }

  lemma {:induction false} DropReady(
      l: Loop, i: nat, k: nat, id: nat, out: Outcome, at: Whereabouts)
    returns (at': Whereabouts)
    requires Watched(l, k, id, out, at) && i < |l.ready| && at != AtReady(i)
    ensures Watched(l.(ready := Remove(l.ready, i)), k, id, out, at')
  {
    at' := if at.AtReady? && i < at.i then AtReady(at.i - 1) else at;
  }

  lemma {:induction false} DispatchWatched(
      l: Loop, i: nat, k: nat, id: nat, out: Outcome, at: Whereabouts)
    returns (at': Whereabouts)
    requires LoopOk(l) && Watched(l, k, id, out, at) && i < |l.ready|
    ensures Watched(DispatchReady(l, i), k, id, out, at')
  {
    var l1 := l.(ready := Remove(l.ready, i));
    assert Shape(l1);
    if at == AtReady(i) {
      var t := l.ready[i].task;
      ResumeToken(l.conns[k], t.op, t.phase, t.token, SUCCESS);
      at' := OwnTurn(l1, k, id, t.op, Resume(l.conns[k], t.op, t.phase, t.token, SUCCESS), out);
    } else {
      at' := DispatchOther(l, i, k, id, out, at);
    }
  }

  lemma {:induction false} DispatchOther(
      l: Loop, i: nat, k: nat, id: nat, out: Outcome, at: Whereabouts)
    returns (at': Whereabouts)
    requires LoopOk(l) && Watched(l, k, id, out, at) && i < |l.ready| && at != AtReady(i)
    ensures Watched(DispatchReady(l, i), k, id, out, at')
  {
    var l1 := l.(ready := Remove(l.ready, i));
    at' := DropReady(l, i, k, id, out, at);
    match l.ready[i]
    case Posted(id', ec) => Elsewhere(l1, DispatchReady(l, i), k, id, out, at');
    case Resumption(t, ec) =>
      assert TaskOk(l, t);
      if t.conn != k {
        PlaceElsewhere(l1, t.conn, t.id, t.op, t.token, Resume(l.conns[t.conn], t.op, t.phase, t.token, ec),
                       k, id, out, at');
      } else {
        assert Expired(l.conns[k], k, l.ready[i]);
        assert l.conns[k := l.conns[k]] == l.conns;
        Elsewhere(l1, DispatchReady(l, i), k, id, out, at');
      }
  }

  lemma {:induction false} FireWatched(
      l: Loop, k': nat, i: nat, ec: ErrorCode, k: nat, id: nat, out: Outcome, at: Whereabouts)
    returns (at': Whereabouts)
    requires LoopOk(l) && Watched(l, k, id, out, at) && k' < |l.conns| && i < |Waits(l.reactors[k'])|
    requires k' == k ==> ec == SUCCESS
    ensures Watched(Apply(l, Fire(k', i, ec)), k, id, out, at')
  {
    OnlyWait(l.reactors[k'], i);
    var l' := Apply(l, Fire(k', i, ec));
    assert Waits(l.reactors[k'])[i].conn == k';
    if k' != k {
      at' := at;
      Elsewhere(l, l', k, id, out, at);
    } else {
      at' := if at == Waiting then AtReady(|l.ready|) else at;
    }
  }

  lemma {:induction false} CloseWatched(l: Loop, k': nat, k: nat, id: nat, out: Outcome, at: Whereabouts)
    requires LoopOk(l) && Watched(l, k, id, out, at) && k' < |l.conns| && l.conns[k'].initialized && k' != k
    ensures Watched(Apply(l, CloseConn(k')), k, id, out, at)
  {
    assert forall i | 0 <= i < |Aborted(Waits(l.reactors[k']))| ::
        Aborted(Waits(l.reactors[k']))[i].task in Waits(l.reactors[k']);
    Elsewhere(l, Apply(l, CloseConn(k')), k, id, out, at);
  }

  lemma {:induction false} PostOrPlaceElsewhere(
      l: Loop, k': nat, id': nat, op: Op, token: nat, ec: ErrorCode, turn: Turn, k: nat, id: nat,
      out: Outcome, at: Whereabouts)
    requires k' < |l.conns| == |l.reactors| && Homed(l.reactors[k'], k') && k' != k && Watched(l, k, id, out, at)
    ensures Watched(PostOrPlace(l, k', id', op, token, ec, turn), k, id, out, at)
  {
    if ec.Failed() {
      Elsewhere(l, Post(l, id', ec), k, id, out, at);
    } else {
      PlaceElsewhere(l, k', id', op, token, turn, k, id, out, at);
    }
  }

  lemma {:induction false} UpdateElsewhere(
      l: Loop, k': nat, c: Conn, next: nat, k: nat, id: nat, out: Outcome, at: Whereabouts)
    requires k' < |l.conns| && k' != k && Watched(l, k, id, out, at)
    ensures Watched(l.(conns := l.conns[k' := c], next := next), k, id, out, at)
  {
  }

  lemma {:induction false} EnteredElsewhere(
      l: Loop, k': nat, op: Op, c: Conn, ec: ErrorCode, turn: Turn, k: nat, id: nat, out: Outcome,
      at: Whereabouts)
    requires k' < |l.conns| == |l.reactors| && Homed(l.reactors[k'], k') && k' != k && Watched(l, k, id, out, at)
    ensures Watched(Entered(l, k', op, c, ec, turn), k, id, out, at)
  {
    var l1 := l.(conns := l.conns[k' := c], next := l.next + 1);
    UpdateElsewhere(l, k', c, l.next + 1, k, id, out, at);
    PostOrPlaceElsewhere(l1, k', l.next, op, c.token, ec, turn, k, id, out, at);
    assert Entered(l, k', op, c, ec, turn) == PostOrPlace(l1, k', l.next, op, c.token, ec, turn);
  }

  lemma {:induction false} StepWatched(
      l: Loop, s: Step, k: nat, id: nat, out: Outcome, at: Whereabouts)
    returns (at': Whereabouts)
    requires LoopOk(l) && Watched(l, k, id, out, at) && Quiet(s, k)
    ensures Watched(Apply(l, s), k, id, out, at')
  {
    at' := at;
    match s
    case Issue(k', op) =>
      if k' < |l.conns| {
        var c := Prepared(l.conns[k'], op).conn;
        PreparedSound(l.conns[k'], op);
        EnteredElsewhere(l, k', op, c, Prepared(l.conns[k'], op).ec, Enter(c, op), k, id, out, at);
      }
    case Fire(k', i, ec) =>
      if k' < |l.conns| && i < |Waits(l.reactors[k'])| { at' := FireWatched(l, k', i, ec, k, id, out, at); }
    case Dispatch(i) => if i < |l.ready| { at' := DispatchWatched(l, i, k, id, out, at); }
    case CancelAll(k') => if k' < |l.conns| { UpdateElsewhere(l, k', Cancel(l.conns[k']), l.next, k, id, out, at); }
    case CloseConn(k') => if k' < |l.conns| && l.conns[k'].initialized { CloseWatched(l, k', k, id, out, at); }
    case CallBlocking(k', op) =>
      if k' < |l.conns| { UpdateElsewhere(l, k', Blocking(l.conns[k'], op).conn, l.next, k, id, out, at); }
  }

  lemma {:induction false} RunWatched(l: Loop, steps: seq<Step>, k: nat, id: nat, out: Outcome, at: Whereabouts)
    returns (at': Whereabouts)
    requires LoopOk(l) && Watched(l, k, id, out, at) && forall i | 0 <= i < |steps| :: Quiet(steps[i], k)
    ensures Watched(Exec(l, steps), k, id, out, at') && LoopOk(Exec(l, steps))
    decreases |steps|
  {
    if steps == [] {
      at' := at;
    } else {
      at' := StepWatched(l, steps[0], k, id, out, at);
      StepOk(l, steps[0]);
      at' := RunWatched(Apply(l, steps[0]), steps[1..], k, id, out, at');
    }
  }

  lemma {:induction false} PreparedBlocking(c: Conn, op: Op)
    requires !Prepared(c, op).ec.Failed()
    ensures Blocking(Prepared(c, op).conn, op) == Blocking(c, op)
  {
  }

  /** Nothing but expired operations is pending on connection `k`. */
  ghost predicate Vacant(l: Loop, k: nat) {
    && k < |l.conns| == |l.reactors|
    && (forall i | 0 <= i < |l.ready| :: Expired(l.conns[k], k, l.ready[i]))
    && (forall i | 0 <= i < |Waits(l.reactors[k])| :: Waits(l.reactors[k])[i].token != l.conns[k].token)
  }

  /** The first turn of an operation without an entry error is headed for its blocking outcome. */
  lemma {:induction false} EntryHeads(c: Conn, op: Op)
    requires Sound(c) && !Prepared(c, op).ec.Failed() && AllWaitable(Schedule(Prepared(c, op).conn, op))
    ensures var c1 := Prepared(c, op).conn;
            && Sound(c1) && c1.token == c.token == Enter(c1, op).Conn().token
            && Drive(Enter(c1, op), op).Completed? && Drive(Enter(c1, op), op).out == Blocking(c, op)
  {
    var c1 := Prepared(c, op).conn;
    PreparedSound(c, op);
    PreparedBlocking(c, op);
    RefinesBlocking(c1, op);
    EnterToken(c1, op);
  }

  lemma {:induction false} IssueWatched(l: Loop, k: nat, op: Op) returns (at: Whereabouts)
    requires LoopOk(l) && Vacant(l, k)
    requires !Prepared(l.conns[k], op).ec.Failed() && AllWaitable(Schedule(Prepared(l.conns[k], op).conn, op))
    ensures Watched(IssueOp(l, k, op), k, l.next, Blocking(l.conns[k], op), at)
  {
    var c := Prepared(l.conns[k], op).conn;
    EntryHeads(l.conns[k], op);
    var l1 := l.(conns := l.conns[k := c], next := l.next + 1);
    UpdateShape(l, k, c, l.next + 1);
    assert IssueOp(l, k, op) == Place(l1, k, l.next, op, c.token, Enter(c, op));
    at := OwnTurn(l1, k, l.next, op, Enter(c, op), Blocking(l.conns[k], op));
  }

  /**
   Delivery: once such an operation is issued, in any run that leaves its
   connection alone, as soon as nothing but expired operations is pending there
   its handler was invoked with the error code and the rows of the blocking call,
   and the connection is in the state the blocking call would have left.
   */
  lemma {:induction false} DeliversBlockingOutcome(l: Loop, k: nat, op: Op, steps: seq<Step>)
    requires LoopOk(l) && Vacant(l, k)
    requires !Prepared(l.conns[k], op).ec.Failed() && AllWaitable(Schedule(Prepared(l.conns[k], op).conn, op))
    requires forall i | 0 <= i < |steps| :: Quiet(steps[i], k)
    ensures var end := Exec(Apply(l, Issue(k, op)), steps);
            var out := Blocking(l.conns[k], op);
            Vacant(end, k) ==> end.conns[k] == out.conn && Invocation(l.next, out.ec, out.rs) in end.done
  {
    var at := IssueWatched(l, k, op);
    StepOk(l, Issue(k, op));
    at := RunWatched(Apply(l, Issue(k, op)), steps, k, l.next, Blocking(l.conns[k], op), at);
  }

  /** A scheduler whose waits on connection `k` succeed. */
  ghost predicate QuietScheduler(pick: Loop -> Step, k: nat) {
    Scheduler(pick) && forall l: Loop :: !Idle(l) ==> Quiet(pick(l), k)
  }

  lemma {:induction false} DrainWatched(
      l: Loop, pick: Loop -> Step, k: nat, id: nat, out: Outcome, at: Whereabouts) returns (at': Whereabouts)
    requires LoopOk(l) && Watched(l, k, id, out, at) && QuietScheduler(pick, k)
    ensures Watched(Drain(l, pick), k, id, out, at')
    decreases CallsLeft(l), SuspensionsLeft(l.conns), WaitsLeft(l)
  {
    at' := at;
    if !Idle(l) {
      at' := StepWatched(l, pick(l), k, id, out, at);
      StepCloser(l, pick(l));
      at' := DrainWatched(Apply(l, pick(l)), pick, k, id, out, at');
    }
  }

  /**
   And it is delivered: after any such run, draining the loop with any scheduler
   under which the waits of the connection succeed invokes the handler with the
   error code and the rows of the blocking call, on the connection it leaves.
   */
  lemma {:induction false} DrainDelivers(l: Loop, k: nat, op: Op, steps: seq<Step>, pick: Loop -> Step)
    requires LoopOk(l) && Vacant(l, k)
    requires var o := Prepared(l.conns[k], op); !o.ec.Failed() && AllWaitable(Schedule(o.conn, op))
    requires (forall i | 0 <= i < |steps| :: Quiet(steps[i], k)) && QuietScheduler(pick, k)
    ensures LoopOk(Exec(Apply(l, Issue(k, op)), steps))
    ensures var end := Drain(Exec(Apply(l, Issue(k, op)), steps), pick);
            var out := Blocking(l.conns[k], op);
            k < |end.conns| && end.conns[k] == out.conn && Invocation(l.next, out.ec, out.rs) in end.done
  {
    var out := Blocking(l.conns[k], op);
    var at := IssueWatched(l, k, op);
    StepOk(l, Issue(k, op));
    at := RunWatched(Apply(l, Issue(k, op)), steps, k, l.next, out, at);
    at := DrainWatched(Exec(Apply(l, Issue(k, op)), steps), pick, k, l.next, out, at);
    assert at == Delivered;
  }

  /** Cancelling or closing a connection vacates it. */
  lemma {:induction false} CancelVacates(l: Loop, k: nat, s: Step)
    requires LoopOk(l) && k < |l.conns| && (s == CancelAll(k) || (s == CloseConn(k) && l.conns[k].initialized))
    ensures LoopOk(Apply(l, s)) && Vacant(Apply(l, s), k)
  {
    StepOk(l, s);
    var l' := Apply(l, s);
    assert forall i | 0 <= i < |l.ready| && l.ready[i].Resumption? :: TaskOk(l, l.ready[i].task);
    if s.CloseConn? {
      assert forall i | 0 <= i < |Aborted(Waits(l.reactors[k]))| ::
          Aborted(Waits(l.reactors[k]))[i].task in Waits(l.reactors[k]);
    }
  }
}
