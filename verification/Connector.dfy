/**
 The connection object (struct implementation) and the result set, updated in
 place as the services do, and proved against the functions of ConnectionState.
 */
module Connector {
  import opened ErrorCodes
  import opened MysqlLibrary
  import opened ConnectionState
  import opened Reactors

  /** error_wrapper: a failing value replaces the code by the errno of the handle. */
  function ErrorWrapper(slot: Slot, h: Handle, ec: ErrorCode): ErrorCode {
    if slot.Failing() then ErrorCode(h.errno, ClientCategory) else ec
  }

  class Connection {
    var mysql: Handle
    var flags: Flags
    var initialized: bool
    var firstResultStored: bool
    var lastResult: Option<nat>
    var cancelationToken: nat
    var fd: int
    var descriptorWaits: seq<Task>
    var timerWaits: seq<Task>

    ghost function State(): Conn
      reads this
    {
      Conn(mysql, flags, initialized, firstResultStored, lastResult, cancelationToken)
    }

    ghost function Reactor(): Reactor
      reads this
    {
      Reactors.Reactor(fd, descriptorWaits, timerWaits)
    }

    constructor (server: Server)
      ensures State() == Conn(Handle(server, 0, 0, None, [], 0, [], [], None), Flags(false, false, 0),
                              false, false, None, 0)
      ensures Reactor() == IDLE && Invariant(State())
    {
      mysql := Handle(server, 0, 0, None, [], 0, [], [], None);
      flags := Flags(false, false, 0);
      initialized, firstResultStored, lastResult, cancelationToken := false, false, None, 0;
      fd, descriptorWaits, timerWaits := -1, [], [];
    }

    method FreeResult()
      modifies this`mysql, this`lastResult
      ensures State() == ConnectionState.FreeResult(old(State()))
    {
      if lastResult.Some? {
        mysql := FreeNative(mysql, lastResult.value);
        lastResult := None;
      }
    }

    method ResetLastResult(native: Option<nat>)
      modifies this`mysql, this`lastResult
      ensures State() == ResetLast(old(State()), native)
    {
      FreeResult();
      lastResult := native;
    }

    method Cancel()
      modifies this`cancelationToken
      ensures State() == ConnectionState.Cancel(old(State()))
    {
      cancelationToken := cancelationToken + 1;
    }

    /** Releases the descriptor and cancels the timer: every registered wait is aborted. */
    method Close() returns (aborted: seq<Task>)
      modifies this
      ensures State() == ConnectionState.Close(old(State()))
      ensures Reactor() == IDLE && aborted == old(Waits(Reactor()))
    {
      if initialized {
        mysql := Reset(mysql);
        initialized := false;
      }
      aborted, descriptorWaits, fd := descriptorWaits, [], -1;
      aborted, timerWaits := aborted + timerWaits, [];
      firstResultStored := false;
      FreeResult();
      Cancel();
    }

    method Open() returns (ec: ErrorCode)
      modifies this`mysql, this`initialized
      ensures Outcome(State(), ec, EMPTY_SET) == ConnectionState.Open(old(State()))
    {
      ec := SUCCESS;
      if !initialized {
        var ok := mysql.server.init(mysql.calls);
        mysql := Reset(mysql).(calls := mysql.calls + 1);
        if !ok { ec := INITIALIZATION_ERROR; }
        initialized := ok;
      }
    }

    /** set_option with the option that makes the handle non-blocking: mysql_options, then error_wrapper. */
    method SetOption() returns (ec: ErrorCode)
      modifies this`mysql
      ensures Outcome(State(), ec, EMPTY_SET) == ConnectionState.SetOption(old(State()))
    {
      if !initialized { return NOT_INITIALIZED; }
      ec := SUCCESS;
      var errno := mysql.server.option(mysql.calls);
      if errno != 0 { mysql := mysql.(errno := errno); }
      ec := ErrorWrapper(IntSlot(errno), mysql, ec);
    }

    /** A blocking library call through its wrapper: clear_error, the call, error_wrapper. */
    method Call(call: Call) returns (slot: Slot, ec: ErrorCode)
      modifies this`mysql
      ensures Answer(mysql, slot) == Block(old(mysql), call) && ec == ErrorOf(Answer(mysql, slot))
    {
      ec := SUCCESS;
      var a := Block(mysql, call);
      mysql, slot := a.handle, a.slot;
      ec := ErrorWrapper(slot, mysql, ec);
    }

    /**
     mysql_start: `slot0` is what the result slot holds on entry. While the call
     is suspended the slot is not written, and the code reported is the errno, 0,
     exactly if the slot holds a failing value; otherwise it is `unknown`.
     */
    method MysqlStart(call: Call, slot0: Slot) returns (status: Status, slot: Slot, ec: ErrorCode)
      modifies this`mysql
      ensures match Start(old(mysql), call)
              case Suspended(h, s) =>
                && mysql == h && status == s && slot == slot0
                && ec == if slot0.Failing() then ErrorCode(0, ClientCategory) else UNKNOWN
              case Finished(a) =>
                mysql == a.handle && status == FINISH && slot == a.slot && ec == ErrorOf(a)
    {
      ec := SUCCESS;
      var p := Start(mysql, call);
      status, slot := Returned(p, slot0);
      if status == FINISH {
        ec := ErrorWrapper(slot, mysql, ec);
      } else if Or(status, EXCEPT) != FINISH {
        ec := UNKNOWN;
        ec := ErrorWrapper(slot, mysql, ec);
      }
    }

    /** mysql_continue, with the same report. The event that fired does not matter to the handle. */
    method MysqlContinue(kind: Kind, slot0: Slot, event: Status) returns (status: Status, slot: Slot, ec: ErrorCode)
      modifies this`mysql
      ensures match Continue(old(mysql), kind)
              case Suspended(h, s) =>
                && mysql == h && status == s && slot == slot0
                && ec == if slot0.Failing() then ErrorCode(0, ClientCategory) else UNKNOWN
              case Finished(a) =>
                mysql == a.handle && status == FINISH && slot == a.slot && ec == ErrorOf(a)
    {
      ec := SUCCESS;
      var p := Continue(mysql, kind);
      status, slot := Returned(p, slot0);
      if status == FINISH {
        ec := ErrorWrapper(slot, mysql, ec);
      } else if Or(status, EXCEPT) != FINISH {
        ec := UNKNOWN;
        ec := ErrorWrapper(slot, mysql, ec);
      }
    }

    /** The library writes the slot of a finished call only. */
    method Returned(p: Progress, slot0: Slot) returns (status: Status, slot: Slot)
      modifies this`mysql
      ensures match p
              case Suspended(h, s) => mysql == h && status == s && slot == slot0
              case Finished(a) => mysql == a.handle && status == FINISH && slot == a.slot
    {
      match p
      case Suspended(h, s) => mysql, status, slot := h, s, slot0;
      case Finished(a) => mysql, status, slot := a.handle, FINISH, a.slot;
    }

    /** async_wait_mysql: assigns the socket, cancels the timer and the descriptor, registers one wait. */
    method AsyncWaitMysql(status: Status, task: Task) returns (aborted: seq<Task>, lost: bool)
      requires ReactorOk(Reactor())
      modifies this`fd, this`descriptorWaits, this`timerWaits
      ensures Registration(Reactor(), aborted, lost)
              == Register(old(Reactor()), mysql.server.socket(mysql.calls), status, task)
      ensures ReactorOk(Reactor())
      ensures var socket := mysql.server.socket(mysql.calls);
              && (status.read ==>
                    fd == socket && descriptorWaits == [task.(event := READ)] && timerWaits == [])
              && (!status.read && status.write ==>
                    fd == socket && descriptorWaits == [task.(event := WRITE)] && timerWaits == [])
              && (!status.read && !status.write && status.timeout ==>
                    fd == old(fd) && descriptorWaits == [] && timerWaits == [task.(event := TIMEOUT)])
              && (!status.read && !status.write && !status.timeout ==>
                    fd == old(fd) && descriptorWaits == [] && timerWaits == [])
      ensures aborted == old(descriptorWaits) + old(timerWaits)
      ensures lost <==> !status.read && !status.write && !status.timeout
    {
      aborted, lost := [], false;
      if status.read || status.write {
        var socket := mysql.server.socket(mysql.calls);
        if fd != socket {
          aborted, descriptorWaits := aborted + descriptorWaits, [];
          fd := socket;
        }
      }
      aborted, timerWaits := aborted + timerWaits, [];
      if fd != -1 {
        aborted, descriptorWaits := aborted + descriptorWaits, [];
      }
      if status.read {
        descriptorWaits := descriptorWaits + [task.(event := READ)];
        return;
      }
      if status.write {
        descriptorWaits := descriptorWaits + [task.(event := WRITE)];
        return;
      }
      if status.timeout {
        timerWaits := timerWaits + [task.(event := TIMEOUT)];
        return;
      }
      lost := true;
    }

    method Connect(target: Target, clientFlags: Flags) returns (ec: ErrorCode)
      modifies this`mysql, this`initialized, this`flags
      ensures Outcome(State(), ec, EMPTY_SET) == ConnectionState.Connect(old(State()), target, clientFlags)
    {
      if !initialized {
        ec := Open();
        if ec.Failed() { return; }
      }
      var _, e := Call(ConnectCall(target, clientFlags));
      ec := e;
      flags := clientFlags;
    }

    method Query(stmt: string) returns (ec: ErrorCode)
      modifies this`mysql, this`lastResult, this`firstResultStored
      ensures Outcome(State(), ec, EMPTY_SET) == ConnectionState.Query(old(State()), stmt)
    {
      if !initialized {
        ec := NOT_INITIALIZED;
        return;
      }
      FreeResult();
      firstResultStored := false;
      var _, e := Call(QueryCall(stmt));
      ec := e;
    }

    predicate HasMoreResults()
      reads this
      ensures HasMoreResults() == ConnectionState.HasMoreResults(State())
    {
      if !initialized then false
      else
        var multiResults := flags.multiResults || flags.multiStatements;
        if multiResults then !firstResultStored || MoreResults(mysql) else !firstResultStored && mysql.fieldCount != 0
    }

    /** `ec0` is the caller's error code; it is read before it is cleared. */
    method StoreResult(ec0: ErrorCode) returns (rs: ResultSet, ec: ErrorCode)
      modifies this`mysql, this`lastResult, this`firstResultStored
      ensures fresh(rs) && rs.Healthy()
      ensures Outcome(State(), ec, rs.View()) == ConnectionState.StoreResult(old(State()), ec0)
    {
      ec := ec0;
      if firstResultStored {
        FreeResult();
        if !HasMoreResults() {
          ec := NO_MORE_RESULTS;
        } else {
          var _, e := Call(NextCall);
          ec := e;
        }
      } else {
        firstResultStored := true;
      }
      if ec.Failed() {
        rs := new ResultSet.EmptySet(this);
        return;
      }
      rs, ec := StoreCurrent();
    }

    /** The second half: the announced table is stored, owned and handed out. */
    method StoreCurrent() returns (rs: ResultSet, ec: ErrorCode)
      modifies this`mysql, this`lastResult
      ensures fresh(rs) && rs.Healthy()
      ensures Outcome(State(), ec, rs.View()) == ConnectionState.StoreCurrent(old(State()))
    {
      var slot, e := Call(StoreCall);
      ec := e;
      ResetLastResult(slot.target);
      rs := new ResultSet();
      ec := rs.Assign(this, lastResult, ec);
    }

    method QueryResult(stmt: string) returns (rs: ResultSet, ec: ErrorCode)
      modifies this`mysql, this`lastResult, this`firstResultStored
      ensures fresh(rs) && rs.Healthy()
      ensures Outcome(State(), ec, rs.View()) == ConnectionState.QueryResult(old(State()), stmt)
    {
      ec := Query(stmt);
      if ec.Failed() {
        rs := new ResultSet.EmptySet(this);
        return;
      }
      rs, ec := StoreResult(ec);
    }
  }

  /** The vector of rows shared by all copies of a result set. */
  class RowVector {
    var rows: seq<Row>

    constructor ()
      ensures rows == []
    {
      rows := [];
    }
  }

  /** Reads the cells of a native row one column after the other. */
  method BuildFields(cells: seq<Cell>, lengths: seq<nat>, count: nat) returns (row: Row)
    requires count == |cells| == |lengths|
    requires forall i | 0 <= i < count :: lengths[i] == CellLength(cells[i])
    ensures row == RowOf(cells) && MirrorsRow(row, cells)
  {
    var fields := [];
    for i := 0 to count
      invariant |fields| == i
      invariant forall j | 0 <= j < i :: fields[j] == Field(cells[j], CellLength(cells[j]))
    {
      fields := fields + [Field(cells[i], lengths[i])];
    }
    row := Row(fields);
  }

  /** mysql_fetch_lengths: a NULL has length 0. */
  function FetchLengths(cells: seq<Cell>): seq<nat> {
    seq(|cells|, i requires 0 <= i < |cells| => CellLength(cells[i]))
  }

  class ResultSet {
    var mysql: Connection?
    var native: Option<nat>             // result_set_, a weak pointer
    var values: RowVector?
    var fieldsInfo: Option<seq<string>>

    constructor ()
      ensures mysql == null && native == None && fieldsInfo == Some([])
      ensures values != null && fresh(values) && values.rows == []
    {
      mysql, native, fieldsInfo := null, None, Some([]);
      values := new RowVector();
    }

    constructor EmptySet(connection: Connection)
      ensures mysql == connection && Healthy() && View() == EMPTY_SET && fresh(values)
    {
      mysql, native, fieldsInfo := connection, None, Some([]);
      values := new RowVector();
    }

    /** A copy watches the same native result and shares the rows. */
    constructor Copy(other: ResultSet)
      ensures mysql == other.mysql && native == other.native && values == other.values && fieldsInfo == other.fieldsInfo
      ensures View() == other.View()
    {
      mysql, native, values, fieldsInfo := other.mysql, other.native, other.values, other.fieldsInfo;
    }

    ghost predicate Healthy()
      reads this
    {
      values != null && fieldsInfo.Some?
    }

    function View(): View
      reads this, values
    {
      ConnectionState.View(native,
                           match fieldsInfo case Some(f) => f case None => [],
                           if values != null then values.rows else [])
    }

    /** Appends to the shared rows; the columns are only read when there are rows. */
    method Assign(connection: Connection, result: Option<nat>, ec0: ErrorCode) returns (ec: ErrorCode)
      requires Healthy()
      requires result.Some? ==> result.value < |connection.mysql.results|
      modifies this, values
      ensures mysql == connection
      ensures result.None? ==> ec == ec0 && native == old(native) && View() == old(View()) && Healthy()
      ensures result.Some? ==>
                var t := connection.mysql.results[result.value];
                var end := ErrorCode(connection.mysql.errno, ClientCategory);
                if t.rows == [] then
                  ec == ec0 && View() == old(View()).(owner := result) && Healthy()
                else if end.Failed() then
                  ec == end && native == None && values == null && fieldsInfo == None
                else
                  && ec == end && values == old(values)
                  && View() == ConnectionState.View(result, t.fields, old(View()).rows + RowsOf(t.rows))
                  && Mirrors(View().rows[|old(View()).rows|..], t.rows)
                  && Healthy()
    {
      ec, mysql := ec0, connection;
      if result.None? { return; }
      native := result;
      var t := connection.mysql.results[result.value];
      if |t.rows| == 0 { return; }

      var infos := [];
      for i := 0 to |t.fields|
        invariant infos == t.fields[..i]
      {
        infos := infos + [t.fields[i]];
      }
      assert infos == t.fields;
      fieldsInfo := Some(infos);

      var next := 0;
      while next < |t.rows|
        invariant 0 <= next <= |t.rows|
        invariant values == old(values) && native == result && mysql == connection && fieldsInfo == Some(t.fields)
        invariant connection.mysql == old(connection.mysql)
        invariant values.rows == old(values.rows) + RowsOf(t.rows)[..next]
      {
        ec := SUCCESS;  // the row fetched is not null
        var row := BuildFields(t.rows[next], FetchLengths(t.rows[next]), |t.fields|);
        values.rows := values.rows + [row];
        next := next + 1;
      }
      ec := ErrorWrapper(PtrSlot(None), connection.mysql, SUCCESS);  // the null row at the end
      assert RowsOf(t.rows)[..next] == RowsOf(t.rows);
      assert values.rows[|old(values.rows)|..] == RowsOf(t.rows);
      RowsMirror(t.rows);

      if ec.Failed() {
        values, fieldsInfo, native := null, None, None;
      }
    }

    /** The weak pointer has expired once the connection owns another result, or none. */
    function Expired(): (expired: bool)
      reads this, mysql, values
      ensures mysql != null ==> expired == (native.None? || mysql.State().last != View().owner)
    {
      native.None? || mysql == null || mysql.lastResult != native
    }

    function Size(): (size: nat)
      requires mysql != null && native.Some? ==> native.value < |mysql.mysql.results|
      reads this, mysql, values
      ensures mysql != null ==> size == SizeOf(mysql.State(), View())
    {
      if Expired() then 0 else |mysql.mysql.results[native.value].rows|
    }

    function Empty(): (empty: bool)
      requires mysql != null && native.Some? ==> native.value < |mysql.mysql.results|
      reads this, mysql, values
      ensures empty <==> Size() == 0
    {
      Expired() || Size() == 0
    }
  }
}
