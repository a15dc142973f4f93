/**
 The event loop of the non-blocking service as a transition system: operations
 issued on several connections, waits that fire or are aborted, completions run
 in any order, cancel, close and blocking calls in between.
 */
module EventLoop {
  import opened ErrorCodes
  import opened MysqlLibrary
  import opened ConnectionState
  import opened ComposedOps
  import opened Ownership
  import opened Reactors

  /** A completion ready to run: a wait that is over, or an error posted when the operation was issued. */
  datatype Ready = Resumption(task: Task, ec: ErrorCode) | Posted(id: nat, ec: ErrorCode)

  datatype Invocation = Invocation(id: nat, ec: ErrorCode, rs: View)

  datatype Loop = Loop(
    conns: seq<Conn>,
    reactors: seq<Reactor>,
    ready: seq<Ready>,
    done: seq<Invocation>,     // handler invocations, in order
    lost: seq<nat>,            // operations for which no wait was registered
    next: nat)                 // number of operations issued

  datatype Step =
    | Issue(k: nat, op: Op)
    | Fire(k: nat, i: nat, ec: ErrorCode)   // the i-th wait of connection k is over
    | Dispatch(i: nat)                      // the i-th ready completion runs
    | CancelAll(k: nat)
    | CloseConn(k: nat)
    | CallBlocking(k: nat, op: Op)

  function Aborted(tasks: seq<Task>): seq<Ready> {
    seq(|tasks|, i requires 0 <= i < |tasks| => Resumption(tasks[i], OPERATION_ABORTED))
  }

  function Remove<T>(s: seq<T>, i: nat): seq<T>
    requires i < |s|
  {
    s[..i] + s[i + 1..]
  }

  function RemoveWait(r: Reactor, i: nat): Reactor
    requires i < |Waits(r)|
  {
    if i < |r.descriptor| then r.(descriptor := Remove(r.descriptor, i))
    else r.(timer := Remove(r.timer, i - |r.descriptor|))
  }

  /** What a turn of operation `id` on connection `k` leaves behind. */
  function Place(l: Loop, k: nat, id: nat, op: Op, token: nat, turn: Turn): Loop
    requires k < |l.conns| == |l.reactors|
  {
    match turn
    case Invoke(out) =>
      l.(conns := l.conns[k := out.conn], done := l.done + [Invocation(id, out.ec, out.rs)])
    case Suspend(c, phase, status) =>
      var task := Task(id, k, token, op, phase, FINISH);
      var reg := Register(l.reactors[k], c.mysql.server.socket(c.mysql.calls), status, task);
      l.(conns := l.conns[k := c], reactors := l.reactors[k := reg.reactor],
         ready := l.ready + Aborted(reg.aborted), lost := l.lost + if reg.lost then [id] else [])
  }

  /**
   What happens before an operation enters: a connect operation opens the handle
   and makes it non-blocking, the others find it open. An error is reported at
   once, and the operation does not enter.
   */
  function Prepared(c: Conn, op: Op): Outcome {
    if op.ConnectOp? then
      var o := Open(c);
      if o.ec.Failed() then o else SetOption(o.conn)
    else Outcome(c, if c.initialized then SUCCESS else NOT_INITIALIZED, EMPTY_SET)
  }

  /** The async_* functions: the first turn runs inside the call that issues the operation. */
  function IssueOp(l: Loop, k: nat, op: Op): Loop
    requires k < |l.conns| == |l.reactors|
  {
    var c := Prepared(l.conns[k], op).conn;
    Entered(l, k, op, c, Prepared(l.conns[k], op).ec, Enter(c, op))
  }

  function Entered(l: Loop, k: nat, op: Op, c: Conn, ec: ErrorCode, turn: Turn): Loop
    requires k < |l.conns| == |l.reactors|
  {
    PostOrPlace(l.(conns := l.conns[k := c], next := l.next + 1), k, l.next, op, c.token, ec, turn)
  }

  function PostOrPlace(l: Loop, k: nat, id: nat, op: Op, token: nat, ec: ErrorCode, turn: Turn): Loop
    requires k < |l.conns| == |l.reactors|
  {
    if ec.Failed() then Post(l, id, ec) else Place(l, k, id, op, token, turn)
  }

  function Post(l: Loop, id: nat, ec: ErrorCode): Loop {
    l.(ready := l.ready + [Posted(id, ec)])
  }

  function DispatchReady(l: Loop, i: nat): Loop
    requires |l.conns| == |l.reactors| && i < |l.ready|
  {
    var l1 := l.(ready := Remove(l.ready, i));
    match l.ready[i]
    case Posted(id, ec) => l1.(done := l.done + [Invocation(id, ec, EMPTY_SET)])
    case Resumption(t, ec) =>
      if t.conn < |l.conns| then
        Place(l1, t.conn, t.id, t.op, t.token, Resume(l.conns[t.conn], t.op, t.phase, t.token, ec))
      else l
  }

  /** A step that is not enabled changes nothing. */
  function Apply(l: Loop, s: Step): Loop
    requires |l.conns| == |l.reactors|
  {
    match s
    case Issue(k, op) => if k < |l.conns| then IssueOp(l, k, op) else l
    case Fire(k, i, ec) =>
      if k < |l.conns| && i < |Waits(l.reactors[k])| then
        l.(reactors := l.reactors[k := RemoveWait(l.reactors[k], i)],
           ready := l.ready + [Resumption(Waits(l.reactors[k])[i], ec)])
      else l
    case Dispatch(i) => if i < |l.ready| then DispatchReady(l, i) else l
    case CancelAll(k) => if k < |l.conns| then l.(conns := l.conns[k := Cancel(l.conns[k])]) else l
    case CloseConn(k) =>
      if k < |l.conns| && l.conns[k].initialized then
        l.(conns := l.conns[k := Close(l.conns[k])], reactors := l.reactors[k := IDLE],
           ready := l.ready + Aborted(Waits(l.reactors[k])))
      else l
    case CallBlocking(k, op) =>
      if k < |l.conns| && (op.StoreOp? ==> l.conns[k].initialized) then
        l.(conns := l.conns[k := Blocking(l.conns[k], op).conn])
      else l
  }

  // Sums over everything that is pending: registered waits and ready completions.

  /** A weight for an item, given its operation and how many calls the operation can still go through. */
  type Weight = (nat, nat) -> nat

  function TaskWeight(t: Task, f: Weight): nat {
    f(t.id, Rank(t.phase) + 1)
  }

  function ReadyWeight(r: Ready, f: Weight): nat {
    match r
    case Resumption(task, _) => TaskWeight(task, f)
    case Posted(id, _) => f(id, 1)
  }

  function TaskSum(tasks: seq<Task>, f: Weight): nat {
    if tasks == [] then 0 else TaskWeight(tasks[0], f) + TaskSum(tasks[1..], f)
  }

  function ReadySum(ready: seq<Ready>, f: Weight): nat {
    if ready == [] then 0 else ReadyWeight(ready[0], f) + ReadySum(ready[1..], f)
  }

  function WaitSum(reactors: seq<Reactor>, f: Weight): nat {
    if reactors == [] then 0 else TaskSum(Waits(reactors[0]), f) + WaitSum(reactors[1..], f)
  }

  function Pending(l: Loop, f: Weight): nat {
    WaitSum(l.reactors, f) + ReadySum(l.ready, f)
  }

  lemma {:induction false} ReadyConcat(a: seq<Ready>, b: seq<Ready>, f: Weight)
    ensures ReadySum(a + b, f) == ReadySum(a, f) + ReadySum(b, f)
  {
    if a == [] {
      assert a + b == b;
    } else {
      assert (a + b)[1..] == a[1..] + b;
      ReadyConcat(a[1..], b, f);
    }
  }

  lemma {:induction false} ReadyAppend(a: seq<Ready>, r: Ready, f: Weight)
    ensures ReadySum(a + [r], f) == ReadySum(a, f) + ReadyWeight(r, f)
  {
    ReadyConcat(a, [r], f);
  }

  lemma {:induction false} ReadyRemove(ready: seq<Ready>, i: nat, f: Weight)
    requires i < |ready|
    ensures ReadySum(Remove(ready, i), f) + ReadyWeight(ready[i], f) == ReadySum(ready, f)
  {
    assert ready == ready[..i] + ([ready[i]] + ready[i + 1..]);
    ReadyConcat(ready[..i], [ready[i]] + ready[i + 1..], f);
    ReadyConcat([ready[i]], ready[i + 1..], f);
    ReadyConcat(ready[..i], ready[i + 1..], f);
  }

  lemma {:induction false} WaitUpdate(reactors: seq<Reactor>, k: nat, r: Reactor, f: Weight)
    requires k < |reactors|
    ensures WaitSum(reactors[k := r], f) + TaskSum(Waits(reactors[k]), f)
            == WaitSum(reactors, f) + TaskSum(Waits(r), f)
  {
    if k == 0 {
      assert reactors[k := r][1..] == reactors[1..];
    } else {
      assert reactors[k := r][1..] == reactors[1..][k - 1 := r];
      WaitUpdate(reactors[1..], k - 1, r, f);
    }
  }

  /** The waits of a reactor, at most one, moved to the ready completions. */
  lemma {:induction false} AbortSum(ready: seq<Ready>, tasks: seq<Task>, f: Weight)
    requires |tasks| <= 1
    ensures ReadySum(ready + Aborted(tasks), f) == ReadySum(ready, f) + TaskSum(tasks, f)
  {
    if tasks == [] {
      assert ready + Aborted(tasks) == ready;
    } else {
      assert Aborted(tasks) == [Resumption(tasks[0], OPERATION_ABORTED)];
      ReadyAppend(ready, Resumption(tasks[0], OPERATION_ABORTED), f);
    }
  }

  /** A turn adds its operation to the pending ones exactly if it is suspended and a wait is registered. */
  lemma {:induction false} PlaceSum(l: Loop, k: nat, id: nat, op: Op, token: nat, turn: Turn, f: Weight)
    requires k < |l.conns| == |l.reactors| && ReactorOk(l.reactors[k])
    ensures Pending(Place(l, k, id, op, token, turn), f) == Pending(l, f)
            + if turn.Suspend? && Waitable(turn.status) then f(id, Rank(turn.phase) + 1) else 0
  {
    if turn.Suspend? {
      var reg := Register(l.reactors[k], turn.conn.mysql.server.socket(turn.conn.mysql.calls), turn.status,
                          Task(id, k, token, op, turn.phase, FINISH));
      WaitUpdate(l.reactors, k, reg.reactor, f);
      AbortSum(l.ready, reg.aborted, f);
    }
  }

  lemma {:induction false} OnlyWait(r: Reactor, i: nat)
    requires ReactorOk(r) && i < |Waits(r)|
    ensures Waits(r) == [Waits(r)[i]] && Waits(RemoveWait(r, i)) == [] && ReactorOk(RemoveWait(r, i))
  {
    assert i == 0;
    if r.descriptor == [] {
      assert Waits(r) == r.timer && RemoveWait(r, i) == r.(timer := []);
    } else {
      assert Waits(r) == r.descriptor && RemoveWait(r, i) == r.(descriptor := []);
    }
  }

  lemma {:induction false} FireSum(l: Loop, k: nat, i: nat, ec: ErrorCode, f: Weight)
    requires k < |l.conns| == |l.reactors| && ReactorOk(l.reactors[k]) && i < |Waits(l.reactors[k])|
    ensures Pending(Apply(l, Fire(k, i, ec)), f) == Pending(l, f)
  {
    var r := l.reactors[k];
    var t := Waits(r)[i];
    OnlyWait(r, i);
    assert TaskSum([t], f) == TaskWeight(t, f);
    WaitUpdate(l.reactors, k, RemoveWait(r, i), f);
    ReadyAppend(l.ready, Resumption(t, ec), f);
  }

  lemma {:induction false} CloseSum(l: Loop, k: nat, f: Weight)
    requires k < |l.conns| == |l.reactors| && ReactorOk(l.reactors[k]) && l.conns[k].initialized
    ensures Pending(Apply(l, CloseConn(k)), f) == Pending(l, f)
  {
    hide Close;
    var waits := Waits(l.reactors[k]);
    WaitUpdate(l.reactors, k, IDLE, f);
    AbortSum(l.ready, waits, f);
    assert Waits(IDLE) == [];
    MovedSum(l, Apply(l, CloseConn(k)), f, TaskSum(waits, f));
  }

  /** What the waits lose, the ready completions gain. */
  lemma {:induction false} MovedSum(l: Loop, l': Loop, f: Weight, moved: nat)
    requires WaitSum(l'.reactors, f) + moved == WaitSum(l.reactors, f)
    requires ReadySum(l'.ready, f) == ReadySum(l.ready, f) + moved
    ensures Pending(l', f) == Pending(l, f)
  {
  }

  // The invariant of every reachable state.

  function DoneCount(done: seq<Invocation>, id: nat): nat {
    if done == [] then 0
    else DoneCount(done[..|done| - 1], id) + if done[|done| - 1].id == id then 1 else 0
  }

  function LostCount(lost: seq<nat>, id: nat): nat {
    if lost == [] then 0
    else LostCount(lost[..|lost| - 1], id) + if lost[|lost| - 1] == id then 1 else 0
  }

  function One(id: nat): Weight {
    (i, _) => if i == id then 1 else 0
  }

  /** How often an operation occurs: waiting or ready to run, invoked, or lost. */
  function Places(l: Loop, id: nat): nat {
    Pending(l, One(id)) + DoneCount(l.done, id) + LostCount(l.lost, id)
  }

  /** An operation that was issued occurs exactly once, any other id not at all. */
  predicate Once(l: Loop, id: nat) {
    Places(l, id) == if id < l.next then 1 else 0
  }

  predicate TaskOk(l: Loop, t: Task) {
    t.conn < |l.conns| && t.token <= l.conns[t.conn].token
  }

  /** Every connection accounts for its results and has at most one wait, and no task is ahead of its connection. */
  ghost predicate Shape(l: Loop) {
    && |l.conns| == |l.reactors|
    && (forall k | 0 <= k < |l.conns| :: Sound(l.conns[k]) && ReactorOk(l.reactors[k]))
    && (forall k, i | 0 <= k < |l.reactors| && 0 <= i < |Waits(l.reactors[k])| ::
          Waits(l.reactors[k])[i].conn == k && TaskOk(l, Waits(l.reactors[k])[i]))
    && (forall i | 0 <= i < |l.ready| && l.ready[i].Resumption? :: TaskOk(l, l.ready[i].task))
  }

  /** Moreover every operation issued so far occurs exactly once. */
  ghost predicate LoopOk(l: Loop) {
    Shape(l) && forall id: nat :: Once(l, id)
  }

  lemma {:induction false} PlaceOnce(l: Loop, k: nat, id: nat, op: Op, token: nat, turn: Turn, any: nat)
    requires k < |l.conns| == |l.reactors| && ReactorOk(l.reactors[k])
    ensures Places(Place(l, k, id, op, token, turn), any) == Places(l, any) + One(id)(any, 0)
  {
    PlaceSum(l, k, id, op, token, turn, One(any));
    if turn.Suspend? && !Waitable(turn.status) {
      assert (l.lost + [id])[..|l.lost|] == l.lost;
    } else if turn.Suspend? {
      assert l.lost + [] == l.lost;
    } else {
      assert (l.done + [Invocation(id, turn.out.ec, turn.out.rs)])[..|l.done|] == l.done;
    }
  }

  lemma {:induction false} EnteredOnce(l: Loop, k: nat, op: Op, c: Conn, ec: ErrorCode, turn: Turn, any: nat)
    requires k < |l.conns| && LoopOk(l)
    ensures Places(Entered(l, k, op, c, ec, turn), any) == Places(l, any) + One(l.next)(any, 0)
  {
    if ec.Failed() {
      ReadyAppend(l.ready, Posted(l.next, ec), One(any));
    } else {
      PlaceOnce(l.(conns := l.conns[k := c], next := l.next + 1), k, l.next, op, c.token, turn, any);
    }
  }

  lemma {:induction false} IssueOnce(l: Loop, k: nat, op: Op, any: nat)
    requires k < |l.conns| && LoopOk(l)
    ensures Once(IssueOp(l, k, op), any)
  {
    var o := Prepared(l.conns[k], op);
    assert IssueOp(l, k, op).next == l.next + 1 by { EnteredNext(l, k, op, o.conn, o.ec, Enter(o.conn, op)); }
    EnteredOnce(l, k, op, o.conn, o.ec, Enter(o.conn, op), any);
    assert Once(l, any);
  }

  lemma {:induction false} EnteredNext(l: Loop, k: nat, op: Op, c: Conn, ec: ErrorCode, turn: Turn)
    requires k < |l.conns| == |l.reactors|
    ensures Entered(l, k, op, c, ec, turn).next == l.next + 1
  {
  }

  lemma {:induction false} DispatchOnce(l: Loop, i: nat, any: nat)
    requires LoopOk(l) && i < |l.ready|
    ensures Once(DispatchReady(l, i), any)
  {
    assert Once(l, any);
    var l1 := l.(ready := Remove(l.ready, i));
    ReadyRemove(l.ready, i, One(any));
    match l.ready[i]
    case Posted(id, ec) =>
      assert (l.done + [Invocation(id, ec, EMPTY_SET)])[..|l.done|] == l.done;
    case Resumption(t, ec) =>
      assert TaskOk(l, t);
      PlaceOnce(l1, t.conn, t.id, t.op, t.token, Resume(l.conns[t.conn], t.op, t.phase, t.token, ec), any);
  }

  lemma {:induction false} OnlyConns(l: Loop, conns: seq<Conn>, any: nat)
    ensures Once(l.(conns := conns), any) == Once(l, any)
  {
  }

  /** No step loses an operation or runs its handler again. */
  lemma {:induction false} StepOnce(l: Loop, s: Step, any: nat)
    requires LoopOk(l)
    ensures Once(Apply(l, s), any)
  {
    assert Once(l, any);
    match s
    case Issue(k, op) => if k < |l.conns| { IssueOnce(l, k, op, any); }
    case Fire(k, i, ec) => if k < |l.conns| && i < |Waits(l.reactors[k])| { FireSum(l, k, i, ec, One(any)); }
    case Dispatch(i) => if i < |l.ready| { DispatchOnce(l, i, any); }
    case CancelAll(k) => OnlyConns(l, Apply(l, s).conns, any);
    case CloseConn(k) => if k < |l.conns| && l.conns[k].initialized { CloseSum(l, k, One(any)); }
    case CallBlocking(k, op) => OnlyConns(l, Apply(l, s).conns, any);
  }
}
