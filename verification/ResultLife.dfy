/**
 How long a result set lives: one that was handed out shows the rows of its
 native result until a later operation frees it, and is expired from then on, in
 every state of every run of the event loop.
 */
module ResultLife {
  import opened ErrorCodes
  import opened MysqlLibrary
  import opened ConnectionState
  import opened ComposedOps
  import opened Ownership
  import opened Reactors
  import opened EventLoop
  import opened LoopSafety
  import WorkerService

  /** A result set as the library hands it out: its rows are those of the native result it watches. */
  predicate Genuine(c: Conn, v: View) {
    && v.owner == c.last
    && (v.owner.None? ==> v == EMPTY_SET)
    && (v.owner.Some? ==>
          && v.owner.value < |c.mysql.results|
          && var t := c.mysql.results[v.owner.value];
             Mirrors(v.rows, t.rows) && v.fields == if t.rows == [] then [] else t.fields)
  }

  /** What is delivered without an error is genuine, and its size is the number of its rows. */
  lemma {:induction false} DeliveredGenuine(c: Conn, a: Answer)
    requires Fits(Storing, a) && c.mysql == a.handle && !ErrorOf(a).Failed()
    ensures var o := Deliver(c, a); !o.ec.Failed() && Genuine(o.conn, o.rs) && SizeOf(o.conn, o.rs) == |o.rs.rows|
  {
  }

  /** So is what the blocking store_result hands out. */
  lemma {:induction false} StoredGenuine(c: Conn, ec: ErrorCode)
    requires CursorOk(c)
    ensures var o := StoreResult(c, ec);
            !o.ec.Failed() ==> Genuine(o.conn, o.rs) && SizeOf(o.conn, o.rs) == |o.rs.rows|
  {
  }

  // The records of allocated and of freed results, and the number of library calls, only grow.

  ghost predicate Grows(h: Handle, h': Handle) {
    h.freed <= h'.freed && h.results <= h'.results && h'.server == h.server && h.calls <= h'.calls
  }

  lemma {:induction false} FreeGrows(c: Conn)
    ensures Grows(c.mysql, FreeResult(c).mysql)
  {
  }

  lemma {:induction false} BlockGrows(h: Handle, call: Call)
    ensures Grows(h, Block(h, call).handle)
  {
  }

  function HandleOf(p: Progress): Handle {
    match p
    case Suspended(h, _) => h
    case Finished(a) => a.handle
  }

  lemma {:induction false} StartGrows(h: Handle, call: Call)
    ensures Grows(h, HandleOf(Start(h, call)))
  {
  }

  lemma {:induction false} ContinueGrows(h: Handle, kind: Kind)
    ensures Grows(h, HandleOf(Continue(h, kind)))
  {
  }

  lemma {:induction false} HandOutGrows(c: Conn, native: Option<nat>, ec: ErrorCode)
    requires !ec.Failed() && native.Some? ==> native.value < |c.mysql.results|
    ensures Grows(c.mysql, HandOut(c, native, ec).conn.mysql)
  {
  }

  lemma {:induction false} BeginStoreGrows(c: Conn)
    ensures Grows(c.mysql, BeginStore(c).Conn().mysql)
  {
    var c1 := FreeResult(c);
    StartGrows(c1.mysql, StoreCall);
    match Start(c1.mysql, StoreCall)
    case Suspended(_, _) =>
    case Finished(a) => HandOutGrows(c1.(mysql := a.handle), a.slot.target, ErrorOf(a));
  }

  lemma {:induction false} ProceedGrows(c: Conn, op: Op, phase: Kind, p: Progress)
    requires (p.Finished? ==> Fits(phase, p.answer)) && Grows(c.mysql, HandleOf(p))
    ensures Grows(c.mysql, Proceed(c, op, phase, p).Conn().mysql)
  {
    match p
    case Suspended(_, _) =>
    case Finished(a) =>
      var c1 := c.(mysql := a.handle);
      match phase {
        case Storing => HandOutGrows(c1, a.slot.target, ErrorOf(a));
        case Advancing => BeginStoreGrows(c1);
        case Querying => BeginStoreGrows(c1.(firstStored := true));
        case Connecting =>
      }
  }

  /** The connection once an operation has freed what was held; connecting does not. */
  function Released(c: Conn, op: Op): Conn {
    if op.ConnectOp? then c else FreeResult(c)
  }

  lemma {:induction false} BeginGrows(c: Conn, op: Op, call: Call)
    ensures Grows(c.mysql, Begin(c, op, call).Conn().mysql)
  {
    StartGrows(c.mysql, call);
    ProceedGrows(c, op, call.Kind(), Start(c.mysql, call));
  }

  lemma {:induction false} EnterGrows(c: Conn, op: Op)
    requires CursorOk(c)
    ensures Grows(Released(c, op).mysql, Enter(c, op).Conn().mysql)
  {
    var c1 := FreeResult(c);
    match op
    case ConnectOp(target, flags) => BeginGrows(c.(flags := flags), op, ConnectCall(target, flags));
    case QueryOp(stmt) => BeginGrows(c1.(firstStored := false), op, QueryCall(stmt));
    case QueryResultOp(stmt) => BeginGrows(c1.(firstStored := false), op, QueryCall(stmt));
    case StoreOp =>
      BeginStoreGrows(c.(firstStored := true));
      BeginGrows(c1, op, NextCall);
  }

  lemma {:induction false} ResumeGrows(c: Conn, op: Op, phase: Kind, token: nat, ec: ErrorCode)
    ensures Grows(c.mysql, Resume(c, op, phase, token, ec).Conn().mysql)
  {
    ContinueGrows(c.mysql, phase);
    ProceedGrows(c, op, phase, Continue(c.mysql, phase));
  }

  lemma {:induction false} StoreResultGrows(c: Conn, ec: ErrorCode)
    requires CursorOk(c)
    ensures Grows(FreeResult(c).mysql, StoreResult(c, ec).conn.mysql)
  {
  }

  lemma {:induction false} QueryGrows(c: Conn, stmt: string)
    requires CursorOk(c)
    ensures Grows(FreeResult(c).mysql, Query(c, stmt).conn.mysql) && CursorOk(Query(c, stmt).conn)
  {
  }

  lemma {:induction false} BlockingGrows(c: Conn, op: Op)
    requires CursorOk(c)
    ensures Grows(Released(c, op).mysql, Blocking(c, op).conn.mysql)
  {
    match op
    case ConnectOp(target, flags) => BlockGrows(Open(c).conn.mysql, ConnectCall(target, flags));
    case QueryOp(stmt) => QueryGrows(c, stmt);
    case StoreOp => StoreResultGrows(c, SUCCESS);
    case QueryResultOp(stmt) =>
      QueryGrows(c, stmt);
      var o := Query(c, stmt);
      StoreResultGrows(o.conn, o.ec);
      FreeGrows(o.conn);
  }

  // Runs.

  lemma {:induction false} PlaceGrows(l: Loop, k': nat, id: nat, op: Op, token: nat, turn: Turn, k: nat)
    requires k' < |l.conns| == |l.reactors| && k < |l.conns| && Grows(l.conns[k'].mysql, turn.Conn().mysql)
    ensures Grows(l.conns[k].mysql, Place(l, k', id, op, token, turn).conns[k].mysql)
  {
  }

  /** The connection of an operation just issued: entered, unless an error was posted. */
  function IssuedConn(c: Conn, op: Op): Conn {
    var c1 := Prepared(c, op).conn;
    if Prepared(c, op).ec.Failed() then c1 else Enter(c1, op).Conn()
  }

  lemma {:induction false} IssuedIs(l: Loop, k: nat, op: Op)
    requires k < |l.conns| == |l.reactors|
    ensures IssueOp(l, k, op).conns == l.conns[k := IssuedConn(l.conns[k], op)]
  {
  }

  lemma {:induction false} IssuedGrows(c: Conn, op: Op)
    requires CursorOk(c)
    ensures Grows(Released(c, op).mysql, IssuedConn(c, op).mysql)
  {
    EnterGrows(Prepared(c, op).conn, op);
  }

  lemma {:induction false} DispatchGrows(l: Loop, i: nat, k: nat)
    requires Shape(l) && i < |l.ready| && k < |l.conns|
    ensures |DispatchReady(l, i).conns| == |l.conns| && Grows(l.conns[k].mysql, DispatchReady(l, i).conns[k].mysql)
  {
    if l.ready[i].Resumption? {
      var t := l.ready[i].task;
      assert TaskOk(l, t);
      var turn := Resume(l.conns[t.conn], t.op, t.phase, t.token, l.ready[i].ec);
      ResumeGrows(l.conns[t.conn], t.op, t.phase, t.token, l.ready[i].ec);
      PlaceGrows(l.(ready := Remove(l.ready, i)), t.conn, t.id, t.op, t.token, turn, k);
    }
  }

  lemma {:induction false} UpdateGrows(conns: seq<Conn>, k': nat, base: Conn, c: Conn, k: nat)
    requires k' < |conns| && k < |conns| && Grows(conns[k'].mysql, base.mysql) && Grows(base.mysql, c.mysql)
    ensures Grows(conns[k].mysql, conns[k' := c][k].mysql)
  {
  }

  lemma {:induction false} StepGrows(l: Loop, s: Step, k: nat)
    requires Shape(l) && k < |l.conns|
    ensures |Apply(l, s).conns| == |l.conns| && Grows(l.conns[k].mysql, Apply(l, s).conns[k].mysql)
  {
    match s
    case Issue(k', op) =>
      if k' < |l.conns| {
        IssuedIs(l, k', op);
        IssuedGrows(l.conns[k'], op);
        FreeGrows(l.conns[k']);
        UpdateGrows(l.conns, k', Released(l.conns[k'], op), IssuedConn(l.conns[k'], op), k);
      }
    case Dispatch(i) => if i < |l.ready| { DispatchGrows(l, i, k); }
    case CloseConn(k') => if k' < |l.conns| { FreeGrows(l.conns[k']); }
    case CallBlocking(k', op) =>
      if k' < |l.conns| {
        BlockingGrows(l.conns[k'], op);
        FreeGrows(l.conns[k']);
        UpdateGrows(l.conns, k', Released(l.conns[k'], op), Blocking(l.conns[k'], op).conn, k);
      }
    case Fire(_, _, _) =>
    case CancelAll(_) =>
  }

  lemma {:induction false} RunGrows(l: Loop, steps: seq<Step>, k: nat)
    requires LoopOk(l) && k < |l.conns|
    ensures LoopOk(Exec(l, steps)) && Grows(l.conns[k].mysql, Exec(l, steps).conns[k].mysql)
    decreases |steps|
  {
    if steps != [] {
      StepOk(l, steps[0]);
      StepGrows(l, steps[0], k);
      RunGrows(Apply(l, steps[0]), steps[1..], k);
    }
  }

  /**
   The life of a result set that was handed out: in every later state of every
   run its size is the number of its rows, and those are the server's, until its
   native result is freed, and 0 from then on.
   */
  lemma {:induction false} LivesUntilFreed(l: Loop, steps: seq<Step>, k: nat, v: View)
    requires LoopOk(l) && k < |l.conns| && v.owner.Some? && Genuine(l.conns[k], v)
    ensures var c := Exec(l, steps).conns[k];
            && v.owner.value < |c.mysql.results| && Mirrors(v.rows, c.mysql.results[v.owner.value].rows)
            && (v.owner.value in c.mysql.freed <==> c.last != v.owner)
            && SizeOf(c, v) == if v.owner.value in c.mysql.freed then 0 else |v.rows|
  {
    RunGrows(l, steps, k);
    NothingLost(Exec(l, steps).conns[k], v.owner.value);
  }

  /** The steps by which connection `k` lets go of the result it owns. */
  predicate Lets(l: Loop, s: Step, k: nat) {
    k < |l.conns| && l.conns[k].initialized &&
    match s
    case Issue(k', op) => k' == k && !op.ConnectOp?
    case CallBlocking(k', op) => k' == k && !op.ConnectOp?
    case CloseConn(k') => k' == k
    case _ => false
  }

  lemma {:induction false} LetsFrees(l: Loop, s: Step, k: nat, id: nat)
    requires Shape(l) && Lets(l, s, k) && l.conns[k].last == Some(id)
    ensures |Apply(l, s).conns| == |l.conns| && id in Apply(l, s).conns[k].mysql.freed
  {
    var c := l.conns[k];
    var freed := FreeResult(c).mysql.freed;
    assert freed[|freed| - 1] == id;
    match s
    case Issue(_, op) => IssuedIs(l, k, op); IssuedGrows(c, op);
    case CallBlocking(_, op) => BlockingGrows(c, op);
    case CloseConn(_) =>
  }

  /** Expiry: once a query, a store or a close follows, every copy of it is empty for good. */
  lemma {:induction false} ExpiredForGood(l: Loop, s: Step, steps: seq<Step>, k: nat, v: View)
    requires LoopOk(l) && Lets(l, s, k) && v.owner.Some? && l.conns[k].last == v.owner
    ensures var c := Exec(Apply(l, s), steps).conns[k]; c.last != v.owner && SizeOf(c, v) == 0
  {
    LetsFrees(l, s, k, v.owner.value);
    StepOk(l, s);
    RunGrows(Apply(l, s), steps, k);
    NothingLost(Exec(Apply(l, s), steps).conns[k], v.owner.value);
  }

  // The same for the worker-thread service.

  lemma {:induction false} JobGrows(c: Conn, token: nat, op: Op)
    requires CursorOk(c)
    ensures Grows(c.mysql, WorkerService.RunJob(c, token, op).conn.mysql)
  {
    FreeGrows(c);
    match op
    case ConnectOp(target, flags) => BlockGrows(c.mysql, ConnectCall(target, flags));
    case QueryOp(stmt) => BlockGrows(FreeResult(c).mysql, QueryCall(stmt));
    case StoreOp => StoreResultGrows(c, SUCCESS);
    case QueryResultOp(_) =>
  }

  lemma {:induction false} WorkGrows(s: WorkerService.Service, k: nat)
    requires k < |s.conns| && s.queue != [] && s.queue[0].conn < |s.conns| && CursorOk(s.conns[s.queue[0].conn])
    ensures var s' := WorkerService.WorkOnce(s); |s'.conns| == |s.conns| && Grows(s.conns[k].mysql, s'.conns[k].mysql)
  {
    var j := s.queue[0];
    JobGrows(s.conns[j.conn], j.token, j.op);
  }

  lemma {:induction false} WorkerIssueGrows(s: WorkerService.Service, k': nat, op: Op, k: nat)
    requires k' < |s.conns| && k < |s.conns|
    ensures var s' := WorkerService.IssueOp(s, k', op);
            |s'.conns| == |s.conns| && Grows(s.conns[k].mysql, s'.conns[k].mysql)
  {
    var c := s.conns[k'];
    assert s.conns[k' := c] == s.conns && Grows(c.mysql, Open(c).conn.mysql);
    WorkerIssueConns(s, k', op);
  }

  lemma {:induction false} WorkerIssueConns(s: WorkerService.Service, k: nat, op: Op)
    requires k < |s.conns|
    ensures WorkerService.IssueOp(s, k, op).conns
            == s.conns[k := if op.ConnectOp? then Open(s.conns[k]).conn else s.conns[k]]
  {
    assert s.conns[k := s.conns[k]] == s.conns;
  }

  lemma {:induction false} CloseGrows(c: Conn)
    ensures Grows(c.mysql, Close(c).mysql)
  {
  }

  lemma {:induction false} WorkerStepGrows(s: WorkerService.Service, step: WorkerService.Step, k: nat)
    requires k < |s.conns| && forall i | 0 <= i < |s.conns| :: CursorOk(s.conns[i])
    ensures var s' := WorkerService.Apply(s, step);
            |s'.conns| == |s.conns| && Grows(s.conns[k].mysql, s'.conns[k].mysql)
  {
    match step
    case Issue(k', op) => if k' < |s.conns| { WorkerIssueGrows(s, k', op, k); }
    case Work => if s.queue != [] && s.queue[0].conn < |s.conns| { WorkGrows(s, k); }
    case CloseConn(k') => if k' < |s.conns| { CloseGrows(s.conns[k']); }
    case Deliver =>
    case CancelAll(_) =>
    case Shutdown =>
  }

  lemma {:induction false} WorkerRunGrows(s: WorkerService.Service, steps: seq<WorkerService.Step>, k: nat)
    requires WorkerService.ServiceOk(s) && k < |s.conns|
    ensures var s' := WorkerService.Exec(s, steps);
            WorkerService.ServiceOk(s') && |s'.conns| == |s.conns| && Grows(s.conns[k].mysql, s'.conns[k].mysql)
    decreases |steps|
  {
    if steps != [] {
      WorkerService.StepOk(s, steps[0]);
      assert forall i | 0 <= i < |s.conns| :: Sound(s.conns[i]);
      WorkerStepGrows(s, steps[0], k);
      WorkerRunGrows(WorkerService.Apply(s, steps[0]), steps[1..], k);
    }
  }

  /** The life of a result set under the worker-thread service, in every later state of every run. */
  lemma {:induction false} WorkerLivesUntilFreed(
      s: WorkerService.Service, steps: seq<WorkerService.Step>, k: nat, v: View)
    requires WorkerService.ServiceOk(s) && k < |s.conns| && v.owner.Some? && Genuine(s.conns[k], v)
    ensures |WorkerService.Exec(s, steps).conns| == |s.conns|
    ensures var c := WorkerService.Exec(s, steps).conns[k];
            && v.owner.value < |c.mysql.results| && Mirrors(v.rows, c.mysql.results[v.owner.value].rows)
            && (v.owner.value in c.mysql.freed <==> c.last != v.owner)
            && SizeOf(c, v) == if v.owner.value in c.mysql.freed then 0 else |v.rows|
  {
    WorkerRunGrows(s, steps, k);
    NothingLost(WorkerService.Exec(s, steps).conns[k], v.owner.value);
  }

  /** The steps by which connection `k` lets go of its result: a live query or store job, and a close. */
  predicate WorkerLets(s: WorkerService.Service, step: WorkerService.Step, k: nat) {
    k < |s.conns| &&
    match step
    case Work =>
      && s.queue != [] && s.queue[0].conn == k
      && s.queue[0].token == s.conns[k].token && !s.queue[0].op.ConnectOp?
    case CloseConn(k') => k' == k && s.conns[k].initialized
    case _ => false
  }

  lemma {:induction false} LiveJobFrees(c: Conn, op: Op)
    requires CursorOk(c) && WorkerService.Offered(op)
    ensures Grows(Released(c, op).mysql, WorkerService.RunJob(c, c.token, op).conn.mysql)
  {
    match op
    case ConnectOp(target, flags) => BlockGrows(c.mysql, ConnectCall(target, flags));
    case QueryOp(stmt) => BlockGrows(FreeResult(c).mysql, QueryCall(stmt));
    case StoreOp => StoreResultGrows(c, SUCCESS);
  }

  lemma {:induction false} WorkerLetsFrees(s: WorkerService.Service, step: WorkerService.Step, k: nat, id: nat)
    requires WorkerService.ServiceOk(s) && WorkerLets(s, step, k) && s.conns[k].last == Some(id)
    ensures var s' := WorkerService.Apply(s, step); |s'.conns| == |s.conns| && id in s'.conns[k].mysql.freed
  {
    var c := s.conns[k];
    var freed := FreeResult(c).mysql.freed;
    assert freed[|freed| - 1] == id;
    assert Sound(c);
    match step
    case Work =>
      var j := s.queue[0];
      assert WorkerService.JobOk(s, j);
      LiveJobFrees(c, j.op);
    case CloseConn(_) =>
  }

  /** Once a live query or store job, or a close, follows, every copy of it is empty for good. */
  lemma {:induction false} WorkerExpiredForGood(
      s: WorkerService.Service, step: WorkerService.Step, steps: seq<WorkerService.Step>, k: nat, v: View)
    requires WorkerService.ServiceOk(s) && WorkerLets(s, step, k) && v.owner.Some? && s.conns[k].last == v.owner
    ensures |WorkerService.Exec(WorkerService.Apply(s, step), steps).conns| == |s.conns|
    ensures var c := WorkerService.Exec(WorkerService.Apply(s, step), steps).conns[k];
            c.last != v.owner && SizeOf(c, v) == 0
  {
    WorkerLetsFrees(s, step, k, v.owner.value);
    WorkerService.StepOk(s, step);
    WorkerRunGrows(WorkerService.Apply(s, step), steps, k);
    NothingLost(WorkerService.Exec(WorkerService.Apply(s, step), steps).conns[k], v.owner.value);
  }
}
