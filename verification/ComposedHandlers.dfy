/**
 The four composed operations as written: a step field, a switch whose cases
 fall through, and a loop that is continued at most once per resumption. Each
 call operator is proved to perform exactly one turn of the phase machine, and
 the result slots are proved to hold their failing value until their call is
 finished.
 */
module ComposedHandlers {
  import opened ErrorCodes
  import opened MysqlLibrary
  import opened ConnectionState
  import opened ComposedOps
  import opened Reactors
  import opened Connector

  datatype ConnectStep = C_ENTRY | C_CONT

  class ConnectHandler {
    const conn: Connection
    const id: nat
    const index: nat
    const token: nat
    const target: Target
    const flags: Flags
    var step: ConnectStep
    var result: Slot

    constructor (conn: Connection, id: nat, index: nat, target: Target, flags: Flags)
      ensures this.conn == conn && this.id == id && this.index == index && token == conn.cancelationToken
      ensures Operation() == ConnectOp(target, flags)
      ensures Valid() && At() == None
    {
      this.conn, this.id, this.index, this.target, this.flags := conn, id, index, target, flags;
      token := conn.cancelationToken;
      step, result := C_ENTRY, PtrSlot(None);
    }

    function Operation(): Op {
      ConnectOp(target, flags)
    }

    ghost predicate Valid()
      reads this
    {
      result == Sentinel(Connecting)
    }

    function At(): Option<Kind>
      reads this
    {
      if step == C_ENTRY then None else Some(Connecting)
    }

    /** The switch, for an operation that was not cancelled and whose wait succeeded. */
    method Switch(event: Status) returns (status: Status, ec: ErrorCode)
      requires Valid()
      modifies this, conn`mysql, conn`lastResult, conn`firstResultStored, conn`flags
      ensures match Act(old(conn.State()), Operation(), old(At()), conn.cancelationToken, SUCCESS)
              case Invoke(out) => (status == FINISH || ec.Failed()) && Outcome(conn.State(), ec, EMPTY_SET) == out
              case Suspend(c, phase, s) =>
                && status == s && !ec.Failed() && conn.State() == c
                && Valid() && At() == Some(phase) && phase == Connecting
    {
      status := event;
      if step == C_ENTRY {
        status, result, ec := conn.MysqlStart(ConnectCall(target, flags), result);
        conn.flags := flags;
      } else {
        status, result, ec := conn.MysqlContinue(Connecting, result, status);
      }
      step := C_CONT;
    }

    method Call(ec0: ErrorCode, event: Status) returns (waiting: bool, ec: ErrorCode, aborted: seq<Task>, lost: bool)
      requires Valid() && ReactorOk(conn.Reactor())
      modifies this, conn
      ensures token != old(conn.cancelationToken) || ec0.Failed() ==>
                && !waiting && aborted == [] && !lost && conn.State() == old(conn.State())
                && conn.Reactor() == old(conn.Reactor())
                && ec == if token != old(conn.cancelationToken) then OPERATION_ABORTED else ec0
      ensures match Act(old(conn.State()), Operation(), old(At()), token, ec0)
              case Invoke(out) =>
                && !waiting && Outcome(conn.State(), ec, EMPTY_SET) == out
                && conn.Reactor() == old(conn.Reactor()) && aborted == [] && !lost
              case Suspend(c, phase, s) =>
                && waiting && conn.State() == c && Valid() && At() == Some(phase)
                && Registration(conn.Reactor(), aborted, lost)
                   == Register(old(conn.Reactor()), c.mysql.server.socket(c.mysql.calls), s,
                               Task(id, index, token, Operation(), phase, FINISH))
    {
      waiting, ec, aborted, lost := false, ec0, [], false;
      var status := event;
      if token != conn.cancelationToken { ec := OPERATION_ABORTED; }
      if ec.Failed() { return; }
      status, ec := Switch(status);
      if status == FINISH || ec.Failed() { return; }
      aborted, lost := conn.AsyncWaitMysql(status, Task(id, index, token, Operation(), Connecting, FINISH));
      waiting := true;
    }
  }

  datatype QueryStep = Q_ENTRY | Q_CONT

  class QueryHandler {
    const conn: Connection
    const id: nat
    const index: nat
    const token: nat
    const stmt: string
    var step: QueryStep
    var result: Slot

    constructor (conn: Connection, id: nat, index: nat, stmt: string)
      ensures this.conn == conn && this.id == id && this.index == index && token == conn.cancelationToken
      ensures Operation() == QueryOp(stmt)
      ensures Valid() && At() == None
    {
      this.conn, this.id, this.index, this.stmt := conn, id, index, stmt;
      token := conn.cancelationToken;
      step, result := Q_ENTRY, IntSlot(-1);
    }

    function Operation(): Op {
      QueryOp(stmt)
    }

    ghost predicate Valid()
      reads this
    {
      result == Sentinel(Querying)
    }

    function At(): Option<Kind>
      reads this
    {
      if step == Q_ENTRY then None else Some(Querying)
    }

    /** The switch, for an operation that was not cancelled and whose wait succeeded. */
    method Switch(event: Status) returns (status: Status, ec: ErrorCode)
      requires Valid()
      modifies this, conn`mysql, conn`lastResult, conn`firstResultStored, conn`flags
      ensures match Act(old(conn.State()), Operation(), old(At()), conn.cancelationToken, SUCCESS)
              case Invoke(out) => (status == FINISH || ec.Failed()) && Outcome(conn.State(), ec, EMPTY_SET) == out
              case Suspend(c, phase, s) =>
                && status == s && !ec.Failed() && conn.State() == c
                && Valid() && At() == Some(phase) && phase == Querying
    {
      status := event;
      if step == Q_ENTRY {
        conn.FreeResult();
        conn.firstResultStored := false;
        status, result, ec := conn.MysqlStart(QueryCall(stmt), result);
      } else {
        status, result, ec := conn.MysqlContinue(Querying, result, status);
      }
      step := Q_CONT;
    }

    method Call(ec0: ErrorCode, event: Status) returns (waiting: bool, ec: ErrorCode, aborted: seq<Task>, lost: bool)
      requires Valid() && ReactorOk(conn.Reactor())
      modifies this, conn
      ensures token != old(conn.cancelationToken) || ec0.Failed() ==>
                && !waiting && aborted == [] && !lost && conn.State() == old(conn.State())
                && conn.Reactor() == old(conn.Reactor())
                && ec == if token != old(conn.cancelationToken) then OPERATION_ABORTED else ec0
      ensures match Act(old(conn.State()), Operation(), old(At()), token, ec0)
              case Invoke(out) =>
                && !waiting && Outcome(conn.State(), ec, EMPTY_SET) == out
                && conn.Reactor() == old(conn.Reactor()) && aborted == [] && !lost
              case Suspend(c, phase, s) =>
                && waiting && conn.State() == c && Valid() && At() == Some(phase)
                && Registration(conn.Reactor(), aborted, lost)
                   == Register(old(conn.Reactor()), c.mysql.server.socket(c.mysql.calls), s,
                               Task(id, index, token, Operation(), phase, FINISH))
    {
      waiting, ec, aborted, lost := false, ec0, [], false;
      var status := event;
      if token != conn.cancelationToken { ec := OPERATION_ABORTED; }
      if ec.Failed() { return; }
      status, ec := Switch(status);
      if status == FINISH || ec.Failed() { return; }
      aborted, lost := conn.AsyncWaitMysql(status, Task(id, index, token, Operation(), Querying, FINISH));
      waiting := true;
    }
  }

  /** How a case of a switch is left: break, continue the loop, fall into the next case, or wait and return. */
  datatype Flow = Break | Again | Next | Wait

  /** What the end of an operation needs to hand out `native`. */
  predicate Deliverable(h: Handle, native: Option<nat>) {
    native.Some? ==> native.value < |h.results| && h.errno == 0
  }

  /** The common end of the operations that deliver a result set. */
  method HandOutResult(conn: Connection, native: Option<nat>, ec0: ErrorCode) returns (rs: ResultSet, ec: ErrorCode)
    requires !ec0.Failed() ==> Deliverable(conn.mysql, native)
    modifies conn`mysql, conn`lastResult
    ensures fresh(rs) && rs.Healthy()
    ensures Outcome(conn.State(), ec, rs.View()) == HandOut(old(conn.State()), native, ec0)
  {
    ec := ec0;
    if !ec.Failed() {
      conn.ResetLastResult(native);
      rs := new ResultSet();
      ec := rs.Assign(conn, conn.lastResult, ec);
    } else {
      rs := new ResultSet.EmptySet(conn);
    }
  }

  datatype StoreStep = S_ENTRY | S_CONT_STORE | S_ERROR | S_STORE_START | S_CONT_NEXT | S_WAIT_NEXT

  class StoreResultHandler {
    const conn: Connection
    const id: nat
    const index: nat
    const token: nat
    var step: StoreStep
    var nextResult: Slot
    var result: Slot

    constructor (conn: Connection, id: nat, index: nat)
      ensures this.conn == conn && this.id == id && this.index == index && token == conn.cancelationToken
      ensures Valid() && At() == None
    {
      this.conn, this.id, this.index := conn, id, index;
      token := conn.cancelationToken;
      step, nextResult, result := S_ENTRY, IntSlot(-1), PtrSlot(None);
    }

    /** Between turns: the steps that can be resumed, and the slots of the unfinished calls. */
    ghost predicate Valid()
      reads this
    {
      && step in {S_ENTRY, S_CONT_NEXT, S_CONT_STORE}
      && result == Sentinel(Storing)
      && (step != S_CONT_STORE ==> nextResult == Sentinel(Advancing))
    }

    function At(): Option<Kind>
      reads this
    {
      if step == S_ENTRY then None else if step == S_CONT_NEXT then Some(Advancing) else Some(Storing)
    }

    /** The loop is continued either to wait for the move to the next result or to store it. */
    ghost predicate Continued(turn: Turn, status: Status)
      reads this, conn
    {
      && result == Sentinel(Storing)
      && (step == S_WAIT_NEXT || step == S_STORE_START)
      && (step == S_WAIT_NEXT ==>
            nextResult == Sentinel(Advancing) && status != FINISH && turn == Suspend(conn.State(), Advancing, status))
      && (step == S_STORE_START ==> turn == BeginStore(conn.State()))
    }

    /** Leaving the switch, the operation is handed out. */
    ghost predicate Ended(turn: Turn, ec: ErrorCode)
      reads this, conn
    {
      && result.PtrSlot? && (!ec.Failed() ==> Deliverable(conn.mysql, result.target))
      && turn == Invoke(HandOut(conn.State(), result.target, ec))
    }

    method CaseEntry() returns (flow: Flow, status: Status, ec: ErrorCode)
      requires Valid() && step == S_ENTRY
      modifies this`step, this`nextResult, conn`mysql, conn`lastResult, conn`firstResultStored
      ensures flow != Wait && (flow != Break ==> !ec.Failed())
      ensures var turn := Enter(old(conn.State()), StoreOp);
              && (flow == Break ==> Ended(turn, ec))
              && (flow == Again ==> Continued(turn, status))
              && (flow == Next ==> result == Sentinel(Storing) && turn == BeginStore(conn.State()))
    {
      status, ec := FINISH, SUCCESS;
      if conn.firstResultStored {
        conn.FreeResult();
        if !conn.HasMoreResults() {
          return Break, status, NO_MORE_RESULTS;
        }
        status, nextResult, ec := conn.MysqlStart(NextCall, nextResult);
        if ec.Failed() { return Break, status, ec; }
        if status != FINISH {
          step := S_WAIT_NEXT;
          return Again, status, ec;
        }
      } else {
        conn.firstResultStored := true;
      }
      flow := Next;
    }

    method CaseStoreStart() returns (flow: Flow, status: Status, ec: ErrorCode)
      requires result == Sentinel(Storing)
      modifies this`step, this`result, conn`mysql, conn`lastResult
      ensures flow == Break || flow == Next
      ensures var turn := BeginStore(old(conn.State()));
              && (flow == Break ==> Ended(turn, ec))
              && (flow == Next ==>
                    && step == S_STORE_START && !ec.Failed() && result == Sentinel(Storing)
                    && status != FINISH && turn == Suspend(conn.State(), Storing, status))
    {
      step := S_STORE_START;
      conn.FreeResult();
      status, result, ec := conn.MysqlStart(StoreCall, result);
      flow := if ec.Failed() || status == FINISH then Break else Next;
    }

    /** Continues the call the operation is suspended in, unless it was only just started. */
    method CaseCont(status0: Status, ghost turn: Turn) returns (flow: Flow, status: Status, ec: ErrorCode)
      requires result == Sentinel(Storing) && step in {S_STORE_START, S_WAIT_NEXT, S_CONT_NEXT, S_CONT_STORE}
      requires step in {S_WAIT_NEXT, S_CONT_NEXT} ==> nextResult == Sentinel(Advancing)
      requires step == S_WAIT_NEXT ==> status0 != FINISH && turn == Suspend(conn.State(), Advancing, status0)
      requires step == S_STORE_START ==> status0 != FINISH && turn == Suspend(conn.State(), Storing, status0)
      requires step == S_CONT_NEXT || step == S_CONT_STORE ==>
                 turn == Proceed(conn.State(), StoreOp, At().value, Continue(conn.mysql, At().value))
      modifies this`step, this`nextResult, this`result, conn`mysql
      ensures flow != Next && (flow == Again ==> old(step) == S_CONT_NEXT && step == S_STORE_START && !ec.Failed())
      ensures flow == Break ==> Ended(turn, ec)
      ensures flow == Again ==> Continued(turn, status)
      ensures flow == Wait ==>
                Valid() && At().Some? && status != FINISH && turn == Suspend(conn.State(), At().value, status)
    {
      status, ec := status0, SUCCESS;
      if step == S_STORE_START {
        step := S_CONT_STORE;
      } else if step == S_CONT_STORE {
        status, result, ec := conn.MysqlContinue(Storing, result, status);
      } else if step == S_CONT_NEXT {
        status, nextResult, ec := conn.MysqlContinue(Advancing, nextResult, status);
      } else if step == S_WAIT_NEXT {
        step := S_CONT_NEXT;
      }
      if ec.Failed() { return Break, status, ec; }
      if status == FINISH {
        if step == S_CONT_NEXT {
          step := S_STORE_START;
          return Again, status, ec;
        }
        assert step == S_CONT_STORE;
        return Break, status, ec;
      }
      flow := Wait;
    }

    /** One turn of the loop: the check of the token and the switch. */
    method Switch(ec0: ErrorCode, status0: Status, ghost turn: Turn, ghost again: bool)
      returns (flow: Flow, status: Status, ec: ErrorCode)
      requires !again ==> Valid() && turn == Act(conn.State(), StoreOp, At(), token, ec0)
      requires again ==> Continued(turn, status0) && !ec0.Failed() && token == conn.cancelationToken
      modifies this, conn`mysql, conn`lastResult, conn`firstResultStored
      ensures flow != Next && (flow == Again ==> !again && !ec.Failed() && token == conn.cancelationToken)
      ensures flow == Break ==> Ended(turn, ec)
      ensures flow == Again ==> Continued(turn, status)
      ensures flow == Wait ==>
                Valid() && At().Some? && status != FINISH && turn == Suspend(conn.State(), At().value, status)
    {
      flow, status, ec := Next, status0, ec0;
      if token != conn.cancelationToken { ec := OPERATION_ABORTED; }
      var at := if ec.Failed() then S_ERROR else step;
      if at == S_ERROR { return Break, status, ec; }
      if at == S_ENTRY { flow, status, ec := CaseEntry(); }
      if flow == Next && (at == S_ENTRY || at == S_STORE_START) { flow, status, ec := CaseStoreStart(); }
      if flow == Next { flow, status, ec := CaseCont(status, turn); }
    }

    method Call(ec0: ErrorCode, event: Status)
      returns (waiting: bool, ec: ErrorCode, rs: ResultSet, aborted: seq<Task>, lost: bool,
               ghost turns: nat)
      requires Valid() && ReactorOk(conn.Reactor())
      modifies this, conn
      ensures fresh(rs) && rs.Healthy() && turns <= 2
      ensures token != old(conn.cancelationToken) || ec0.Failed() ==>
                && !waiting && rs.View() == EMPTY_SET && aborted == [] && !lost && conn.State() == old(conn.State())
                && conn.Reactor() == old(conn.Reactor())
                && ec == if token != old(conn.cancelationToken) then OPERATION_ABORTED else ec0
      ensures match Act(old(conn.State()), StoreOp, old(At()), token, ec0)
              case Invoke(out) =>
                && !waiting && Outcome(conn.State(), ec, rs.View()) == out
                && conn.Reactor() == old(conn.Reactor()) && aborted == [] && !lost
              case Suspend(c, phase, s) =>
                && waiting && conn.State() == c && Valid() && At() == Some(phase)
                && Registration(conn.Reactor(), aborted, lost)
                   == Register(old(conn.Reactor()), c.mysql.server.socket(c.mysql.calls), s,
                               Task(id, index, token, StoreOp, phase, FINISH))
    {
      if token != conn.cancelationToken || ec0.Failed() { FailedTurn(conn.State(), StoreOp, At(), token, ec0); }
      hide Act;
      ghost var turn := Act(conn.State(), StoreOp, At(), token, ec0);
      waiting, ec, aborted, lost := false, ec0, [], false;
      var flow, status := Again, event;
      turns := 0;
      while flow == Again
        invariant turns <= 2 && conn.Reactor() == old(conn.Reactor())
        invariant flow != Next && (turns == 0 ==> flow == Again) && (turns == 2 ==> flow != Again)
        invariant turns == 0 ==> Valid() && ec == ec0 && turn == Act(conn.State(), StoreOp, At(), token, ec)
        invariant turns == 1 && flow == Again ==>
                    Continued(turn, status) && !ec.Failed() && token == conn.cancelationToken
        invariant flow == Break ==> Ended(turn, ec)
        invariant flow == Wait ==>
                    Valid() && At().Some? && status != FINISH && turn == Suspend(conn.State(), At().value, status)
        decreases 2 - turns
      {
        flow, status, ec := Switch(ec, status, turn, turns == 1);
        turns := turns + 1;
      }
      if flow == Wait {
        aborted, lost := conn.AsyncWaitMysql(status, Task(id, index, token, StoreOp, At().value, FINISH));
        waiting := true;
        rs := new ResultSet.EmptySet(conn);
      } else {
        rs, ec := HandOutResult(conn, result.target, ec);
      }
    }
  }

  datatype QueryResultStep = R_ENTRY | R_ERROR | R_STORE_START | R_CONT_STORE | R_WAIT_QUERY | R_CONT_QUERY

  class QueryResultHandler {
    const conn: Connection
    const id: nat
    const index: nat
    const token: nat
    const stmt: string
    var step: QueryResultStep
    var queryResult: Slot
    var result: Slot

    constructor (conn: Connection, id: nat, index: nat, stmt: string)
      ensures this.conn == conn && this.id == id && this.index == index && token == conn.cancelationToken
      ensures Operation() == QueryResultOp(stmt)
      ensures Valid() && At() == None
    {
      this.conn, this.id, this.index, this.stmt := conn, id, index, stmt;
      token := conn.cancelationToken;
      step, queryResult, result := R_ENTRY, IntSlot(-1), PtrSlot(None);
    }

    function Operation(): Op {
      QueryResultOp(stmt)
    }

    /** Between turns: the steps that can be resumed, and the slots of the unfinished calls. */
    ghost predicate Valid()
      reads this
    {
      && step in {R_ENTRY, R_CONT_QUERY, R_CONT_STORE}
      && result == Sentinel(Storing)
      && (step != R_CONT_STORE ==> queryResult == Sentinel(Querying))
    }

    function At(): Option<Kind>
      reads this
    {
      if step == R_ENTRY then None else if step == R_CONT_QUERY then Some(Querying) else Some(Storing)
    }

    /** The loop is continued either to wait for the query or to store its result. */
    ghost predicate Continued(turn: Turn, status: Status)
      reads this, conn
    {
      && result == Sentinel(Storing)
      && (step == R_WAIT_QUERY || step == R_STORE_START)
      && (step == R_WAIT_QUERY ==>
            queryResult == Sentinel(Querying) && status != FINISH && turn == Suspend(conn.State(), Querying, status))
      && (step == R_STORE_START ==> turn == BeginStore(conn.State().(firstStored := true)))
    }

    /** Leaving the switch, the operation is handed out. */
    ghost predicate Ended(turn: Turn, ec: ErrorCode)
      reads this, conn
    {
      && result.PtrSlot? && (!ec.Failed() ==> Deliverable(conn.mysql, result.target))
      && turn == Invoke(HandOut(conn.State(), result.target, ec))
    }

    method CaseEntry() returns (flow: Flow, status: Status, ec: ErrorCode)
      requires Valid() && step == R_ENTRY
      modifies this`step, this`queryResult, conn`mysql, conn`lastResult, conn`firstResultStored
      ensures flow != Wait && (flow != Break ==> !ec.Failed())
      ensures var turn := Enter(old(conn.State()), Operation());
              && (flow == Break ==> Ended(turn, ec))
              && (flow == Again ==> Continued(turn, status))
              && (flow == Next ==>
                    step == R_STORE_START && result == Sentinel(Storing)
                    && turn == BeginStore(conn.State().(firstStored := true)))
    {
      conn.FreeResult();
      conn.firstResultStored := false;
      status, queryResult, ec := conn.MysqlStart(QueryCall(stmt), queryResult);
      if ec.Failed() { return Break, status, ec; }
      if status != FINISH {
        step := R_WAIT_QUERY;
        return Again, status, ec;
      }
      step := R_STORE_START;
      flow := Next;
    }

    method CaseStoreStart() returns (flow: Flow, status: Status, ec: ErrorCode)
      requires result == Sentinel(Storing) && step == R_STORE_START
      modifies this`step, this`result, conn`mysql, conn`lastResult, conn`firstResultStored
      ensures flow == Break || flow == Next
      ensures var turn := BeginStore(old(conn.State()).(firstStored := true));
              && (flow == Break ==> Ended(turn, ec))
              && (flow == Next ==>
                    && step == R_STORE_START && !ec.Failed() && result == Sentinel(Storing)
                    && status != FINISH && turn == Suspend(conn.State(), Storing, status))
    {
      conn.FreeResult();
      conn.firstResultStored := true;
      status, result, ec := conn.MysqlStart(StoreCall, result);
      flow := if ec.Failed() || status == FINISH then Break else Next;
    }

    /** Continues the call the operation is suspended in, unless it was only just started. */
    method CaseCont(status0: Status, ghost turn: Turn) returns (flow: Flow, status: Status, ec: ErrorCode)
      requires result == Sentinel(Storing) && step in {R_STORE_START, R_WAIT_QUERY, R_CONT_QUERY, R_CONT_STORE}
      requires step in {R_WAIT_QUERY, R_CONT_QUERY} ==> queryResult == Sentinel(Querying)
      requires step == R_WAIT_QUERY ==> status0 != FINISH && turn == Suspend(conn.State(), Querying, status0)
      requires step == R_STORE_START ==> status0 != FINISH && turn == Suspend(conn.State(), Storing, status0)
      requires step == R_CONT_QUERY || step == R_CONT_STORE ==>
                 turn == Proceed(conn.State(), Operation(), At().value, Continue(conn.mysql, At().value))
      modifies this`step, this`queryResult, this`result, conn`mysql
      ensures flow != Next && (flow == Again ==> old(step) == R_CONT_QUERY && step == R_STORE_START && !ec.Failed())
      ensures flow == Break ==> Ended(turn, ec)
      ensures flow == Again ==> Continued(turn, status)
      ensures flow == Wait ==>
                Valid() && At().Some? && status != FINISH && turn == Suspend(conn.State(), At().value, status)
    {
      status, ec := status0, SUCCESS;
      if step == R_STORE_START {
        step := R_CONT_STORE;
      } else if step == R_CONT_STORE {
        status, result, ec := conn.MysqlContinue(Storing, result, status);
      } else if step == R_CONT_QUERY {
        status, queryResult, ec := conn.MysqlContinue(Querying, queryResult, status);
      } else if step == R_WAIT_QUERY {
        step := R_CONT_QUERY;
      }
      if ec.Failed() { return Break, status, ec; }
      if status == FINISH {
        if step == R_CONT_QUERY {
          step := R_STORE_START;
          return Again, status, ec;
        }
        assert step == R_CONT_STORE;
        return Break, status, ec;
      }
      flow := Wait;
    }

    /** One turn of the loop: the check of the token and the switch. */
    method Switch(ec0: ErrorCode, status0: Status, ghost turn: Turn, ghost again: bool)
      returns (flow: Flow, status: Status, ec: ErrorCode)
      requires !again ==> Valid() && turn == Act(conn.State(), Operation(), At(), token, ec0)
      requires again ==> Continued(turn, status0) && !ec0.Failed() && token == conn.cancelationToken
      modifies this, conn`mysql, conn`lastResult, conn`firstResultStored
      ensures flow != Next && (flow == Again ==> !again && !ec.Failed() && token == conn.cancelationToken)
      ensures flow == Break ==> Ended(turn, ec)
      ensures flow == Again ==> Continued(turn, status)
      ensures flow == Wait ==>
                Valid() && At().Some? && status != FINISH && turn == Suspend(conn.State(), At().value, status)
    {
      flow, status, ec := Next, status0, ec0;
      if token != conn.cancelationToken { ec := OPERATION_ABORTED; }
      var at := if ec.Failed() then R_ERROR else step;
      if at == R_ERROR { return Break, status, ec; }
      if at == R_ENTRY { flow, status, ec := CaseEntry(); }
      if flow == Next && (at == R_ENTRY || at == R_STORE_START) { flow, status, ec := CaseStoreStart(); }
      if flow == Next { flow, status, ec := CaseCont(status, turn); }
    }

    method Call(ec0: ErrorCode, event: Status)
      returns (waiting: bool, ec: ErrorCode, rs: ResultSet, aborted: seq<Task>, lost: bool,
               ghost turns: nat)
      requires Valid() && ReactorOk(conn.Reactor())
      modifies this, conn
      ensures fresh(rs) && rs.Healthy() && turns <= 2
      ensures token != old(conn.cancelationToken) || ec0.Failed() ==>
                && !waiting && rs.View() == EMPTY_SET && aborted == [] && !lost && conn.State() == old(conn.State())
                && conn.Reactor() == old(conn.Reactor())
                && ec == if token != old(conn.cancelationToken) then OPERATION_ABORTED else ec0
      ensures match Act(old(conn.State()), Operation(), old(At()), token, ec0)
              case Invoke(out) =>
                && !waiting && Outcome(conn.State(), ec, rs.View()) == out
                && conn.Reactor() == old(conn.Reactor()) && aborted == [] && !lost
              case Suspend(c, phase, s) =>
                && waiting && conn.State() == c && Valid() && At() == Some(phase)
                && Registration(conn.Reactor(), aborted, lost)
                   == Register(old(conn.Reactor()), c.mysql.server.socket(c.mysql.calls), s,
                               Task(id, index, token, Operation(), phase, FINISH))
    {
      if token != conn.cancelationToken || ec0.Failed() { FailedTurn(conn.State(), Operation(), At(), token, ec0); }
      hide Act;
      ghost var turn := Act(conn.State(), Operation(), At(), token, ec0);
      waiting, ec, aborted, lost := false, ec0, [], false;
      var flow, status := Again, event;
      turns := 0;
      while flow == Again
        invariant turns <= 2 && conn.Reactor() == old(conn.Reactor())
        invariant flow != Next && (turns == 0 ==> flow == Again) && (turns == 2 ==> flow != Again)
        invariant turns == 0 ==> Valid() && ec == ec0 && turn == Act(conn.State(), Operation(), At(), token, ec)
        invariant turns == 1 && flow == Again ==>
                    Continued(turn, status) && !ec.Failed() && token == conn.cancelationToken
        invariant flow == Break ==> Ended(turn, ec)
        invariant flow == Wait ==>
                    Valid() && At().Some? && status != FINISH && turn == Suspend(conn.State(), At().value, status)
        decreases 2 - turns
      {
        flow, status, ec := Switch(ec, status, turn, turns == 1);
        turns := turns + 1;
      }
      if flow == Wait {
        aborted, lost := conn.AsyncWaitMysql(status, Task(id, index, token, Operation(), At().value, FINISH));
        waiting := true;
        rs := new ResultSet.EmptySet(conn);
      } else {
        rs, ec := HandOutResult(conn, result.target, ec);
      }
    }
  }
}
