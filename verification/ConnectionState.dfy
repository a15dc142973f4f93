/**
 A connection as a value, and the blocking operations of both services as
 functions on it. The classes of module Connector are proved against these.
 */
module ConnectionState {
  import opened ErrorCodes
  import opened MysqlLibrary

  datatype Conn = Conn(
    mysql: Handle,
    flags: Flags,
    initialized: bool,
    firstStored: bool,       // first_result_stored
    last: Option<nat>,       // id of the native result owned by last_result
    token: nat)              // cancelation_token: a weak copy has expired iff the numbers differ

  // Result sets as values.

  datatype Field = Field(value: Cell, length: nat)

  datatype Row = Row(fields: seq<Field>)

  /** What a caller gets: the native result it watches, the columns and the rows. */
  datatype View = View(owner: Option<nat>, fields: seq<string>, rows: seq<Row>)

  const EMPTY_SET := View(None, [], [])

  function CellLength(cell: Cell): nat {
    match cell
    case None => 0
    case Some(text) => |text|
  }

  function RowOf(cells: seq<Cell>): Row {
    Row(seq(|cells|, i requires 0 <= i < |cells| => Field(cells[i], CellLength(cells[i]))))
  }

  function RowsOf(rows: seq<seq<Cell>>): seq<Row> {
    seq(|rows|, i requires 0 <= i < |rows| => RowOf(rows[i]))
  }

  /** The row shows the cells: column by column the text or NULL, and its length, 0 for NULL. */
  predicate MirrorsRow(row: Row, cells: seq<Cell>) {
    |row.fields| == |cells| &&
    forall j | 0 <= j < |cells| ::
      && row.fields[j].value == cells[j]
      && row.fields[j].length == match cells[j] case None => 0 case Some(text) => |text|
  }

  /** The rows show those of the server, one for one and in order. */
  predicate Mirrors(rows: seq<Row>, raw: seq<seq<Cell>>) {
    |rows| == |raw| && forall i | 0 <= i < |raw| :: MirrorsRow(rows[i], raw[i])
  }

  lemma {:induction false} RowsMirror(raw: seq<seq<Cell>>)
    ensures Mirrors(RowsOf(raw), raw)
  {
  }

  /** There is only one way to show them. */
  lemma {:induction false} MirrorsUnique(rows: seq<Row>, raw: seq<seq<Cell>>)
    requires Mirrors(rows, raw)
    ensures rows == RowsOf(raw)
  {
    forall i | 0 <= i < |raw| ensures rows[i] == RowOf(raw[i]) {
      assert MirrorsRow(rows[i], raw[i]);
      assert rows[i].fields == RowOf(raw[i]).fields;
    }
  }

  datatype Assigned = Assigned(rs: View, ec: ErrorCode)

  /** result_set::assign on a fresh result set: columns are only read when there are rows. */
  function Assign(h: Handle, native: Option<nat>, ec: ErrorCode): Assigned
    requires native.Some? ==> native.value < |h.results|
  {
    match native
    case None => Assigned(EMPTY_SET, ec)
    case Some(id) =>
      var t := h.results[id];
      if |t.rows| == 0 then Assigned(View(native, [], []), ec)
      else
        var end := ErrorCode(h.errno, ClientCategory);
        if end.Failed() then Assigned(EMPTY_SET, end) else Assigned(View(native, t.fields, RowsOf(t.rows)), end)
  }

  /** result_set::size: the rows of the native result while the connection owns it. */
  function SizeOf(c: Conn, v: View): nat {
    if v.owner.Some? && c.last == v.owner && v.owner.value < |c.mysql.results|
    then |c.mysql.results[v.owner.value].rows| else 0
  }

  // Operations.

  datatype Outcome = Outcome(conn: Conn, ec: ErrorCode, rs: View)

  function FreeResult(c: Conn): Conn {
    match c.last
    case None => c
    case Some(id) => c.(mysql := FreeNative(c.mysql, id), last := None)
  }

  /** last_result.reset(native): the result owned so far is freed first. */
  function ResetLast(c: Conn, native: Option<nat>): Conn {
    FreeResult(c).(last := native)
  }

  predicate HasMoreResults(c: Conn) {
    c.initialized &&
    if c.flags.multiResults || c.flags.multiStatements
    then !c.firstStored || MoreResults(c.mysql)
    else !c.firstStored && c.mysql.fieldCount != 0
  }

  function Cancel(c: Conn): Conn {
    c.(token := c.token + 1)
  }

  function Close(c: Conn): Conn {
    var c1 := if c.initialized then c.(mysql := Reset(c.mysql), initialized := false) else c;
    Cancel(FreeResult(c1.(firstStored := false)))
  }

  function Open(c: Conn): Outcome {
    if c.initialized then Outcome(c, SUCCESS, EMPTY_SET)
    else
      var ok := c.mysql.server.init(c.mysql.calls);
      var h := Reset(c.mysql).(calls := c.mysql.calls + 1);
      Outcome(c.(mysql := h, initialized := ok), if ok then SUCCESS else INITIALIZATION_ERROR, EMPTY_SET)
  }

  /** set_option with the option that makes the handle non-blocking; a failure leaves its errno in the handle. */
  function SetOption(c: Conn): Outcome {
    if !c.initialized then Outcome(c, NOT_INITIALIZED, EMPTY_SET)
    else
      var errno := c.mysql.server.option(c.mysql.calls);
      if errno == 0 then Outcome(c, SUCCESS, EMPTY_SET)
      else Outcome(c.(mysql := c.mysql.(errno := errno)), ErrorCode(errno, ClientCategory), EMPTY_SET)
  }

  function Connect(c: Conn, target: Target, flags: Flags): Outcome {
    var o := Open(c);
    if o.ec.Failed() then o
    else
      var a := Block(o.conn.mysql, ConnectCall(target, flags));
      Outcome(o.conn.(mysql := a.handle, flags := flags), ErrorOf(a), EMPTY_SET)
  }

  function Query(c: Conn, stmt: string): Outcome {
    if !c.initialized then Outcome(c, NOT_INITIALIZED, EMPTY_SET)
    else
      var c1 := FreeResult(c).(firstStored := false);
      var a := Block(c1.mysql, QueryCall(stmt));
      Outcome(c1.(mysql := a.handle), ErrorOf(a), EMPTY_SET)
  }

  /** Stores the announced table, if any, and hands it out. */
  function StoreCurrent(c: Conn): Outcome {
    var a := Block(c.mysql, StoreCall);
    var c1 := ResetLast(c.(mysql := a.handle), a.slot.target);
    var put := Assign(c1.mysql, a.slot.target, ErrorOf(a));
    Outcome(c1, put.ec, put.rs)
  }

  /** The blocking store_result; `ec` is the caller's error code on entry. */
  function StoreResult(c: Conn, ec: ErrorCode): Outcome {
    if c.firstStored then
      var c1 := FreeResult(c);
      if !HasMoreResults(c1) then Outcome(c1, NO_MORE_RESULTS, EMPTY_SET)
      else
        var a := Block(c1.mysql, NextCall);
        var c2 := c1.(mysql := a.handle);
        if ErrorOf(a).Failed() then Outcome(c2, ErrorOf(a), EMPTY_SET) else StoreCurrent(c2)
    else
      var c1 := c.(firstStored := true);
      if ec.Failed() then Outcome(c1, ec, EMPTY_SET) else StoreCurrent(c1)
  }

  function QueryResult(c: Conn, stmt: string): Outcome {
    var o := Query(c, stmt);
    if o.ec.Failed() then o else StoreResult(o.conn, o.ec)
  }

  datatype Op =
    | ConnectOp(target: Target, flags: Flags)
    | QueryOp(stmt: string)
    | StoreOp
    | QueryResultOp(stmt: string)

  /** The blocking form of an operation, called with a fresh error code. */
  function Blocking(c: Conn, op: Op): Outcome {
    match op
    case ConnectOp(target, flags) => Connect(c, target, flags)
    case QueryOp(stmt) => Query(c, stmt)
    case StoreOp => StoreResult(c, SUCCESS)
    case QueryResultOp(stmt) => QueryResult(c, stmt)
  }

  // Invariants.

  /**
   The account of `n` native results: the freed ids are distinct, the held one
   is not among them, and together they are as many as were ever allocated.
   */
  ghost predicate Account(freed: seq<nat>, held: Option<nat>, n: nat) {
    && (forall i | 0 <= i < |freed| :: freed[i] < n && held != Some(freed[i]))
    && (forall i, j | 0 <= i < j < |freed| :: freed[i] != freed[j])
    && |freed| + (if held.Some? then 1 else 0) == n
    && (held.Some? ==> held.value < n)
  }

  ghost predicate Balanced(c: Conn) {
    Account(c.mysql.freed, c.last, |c.mysql.results|)
  }

  /** No result is owned before the first one is stored, nor by a closed connection. */
  predicate CursorOk(c: Conn) {
    (!c.firstStored ==> c.last.None?) && (!c.initialized ==> c.last.None?)
  }

  ghost predicate Invariant(c: Conn) {
    Balanced(c) && CursorOk(c)
  }
}
