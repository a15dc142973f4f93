/**
 The client library as the services see it: an abstract connection handle, the
 blocking calls, and the non-blocking pairs that start a call and continue it.

 The server is a set of total functions indexed by the number of the library
 call, so quantifying over servers quantifies over every answer the server can
 give at every moment and over every finite suspension schedule.
 */
module MysqlLibrary {
  import opened ErrorCodes

  type Positive = n: int | n > 0 witness 1

  // Rows and replies.

  type Cell = Option<string>

  datatype RawTable = RawTable(fields: seq<string>, rows: seq<seq<Cell>>)

  /** A result table has at least one column, and every row has a cell for every column. */
  type Table = t: RawTable |
    |t.fields| > 0 && forall i | 0 <= i < |t.rows| :: |t.rows[i]| == |t.fields|
    witness RawTable(["1"], [])

  /** The server's answer to one statement of a query. */
  datatype Reply =
    | Rows(table: Table)
    | NoRows
    | BrokenRows(columns: Positive, errno: Positive)  // announced, but lost while being read
    | Failure(errno: Positive)

  type Replies = s: seq<Reply> | |s| > 0 witness [NoRows]

  // Wait statuses: the bitmask MYSQL_WAIT_READ, _WRITE, _EXCEPT, _TIMEOUT.

  datatype Status = Status(read: bool, write: bool, except: bool, timeout: bool)

  const FINISH := Status(false, false, false, false)
  const READ := Status(true, false, false, false)
  const WRITE := Status(false, true, false, false)
  const EXCEPT := Status(false, false, true, false)
  const TIMEOUT := Status(false, false, false, true)

  type WaitStatus = s: Status | s != FINISH witness READ

  function Or(a: Status, b: Status): Status {
    Status(a.read || b.read, a.write || b.write, a.except || b.except, a.timeout || b.timeout)
  }

  // Calls.

  datatype Flags = Flags(multiStatements: bool, multiResults: bool, others: nat)

  datatype Target = Target(endpoint: string, user: string, password: string, database: string)

  /** The four calls that have a start and a continue form. */
  datatype Kind = Connecting | Querying | Advancing | Storing

  datatype Call =
    | ConnectCall(target: Target, flags: Flags)
    | QueryCall(stmt: string)
    | NextCall
    | StoreCall
  {
    function Kind(): Kind {
      match this
      case ConnectCall(_, _) => Connecting
      case QueryCall(_) => Querying
      case NextCall => Advancing
      case StoreCall => Storing
    }
  }

  datatype Server = Server(
    init: nat -> bool,                       // does mysql_init find memory
    option: nat -> nat,                      // errno of mysql_options, 0 for success
    connect: (nat, Target, Flags) -> nat,    // errno of the attempt, 0 for success
    query: (nat, string) -> Replies,
    waits: (nat, Call) -> seq<WaitStatus>,   // the suspensions of a non-blocking call
    socket: nat -> nat)

  /** What a call returns: an int (0 is success) or a pointer (null is failure). */
  datatype Slot = IntSlot(code: int) | PtrSlot(target: Option<nat>) {
    predicate Failing() {
      match this
      case IntSlot(code) => code != 0
      case PtrSlot(target) => target.None?
    }
  }

  /** The failing value a composed operation puts in the slot of a call before starting it. */
  function Sentinel(kind: Kind): Slot {
    match kind
    case Connecting => PtrSlot(None)
    case Querying => IntSlot(-1)
    case Advancing => IntSlot(-1)
    case Storing => PtrSlot(None)
  }

  /** A suspended call: its number and the suspensions still to come. */
  datatype Flight = Flight(call: Call, number: nat, waits: seq<WaitStatus>)

  datatype Handle = Handle(
    server: Server,
    calls: nat,                // library calls started so far
    fieldCount: nat,           // mysql_field_count
    unread: Option<Reply>,     // the announced table that has not been stored yet
    later: seq<Reply>,         // answers to the statements after the current one
    errno: int,                // mysql_errno
    results: seq<Table>,       // every native result ever allocated, by id
    freed: seq<nat>,           // ids passed to mysql_free_result, in order
    inflight: Option<Flight>)

  datatype Answer = Answer(handle: Handle, slot: Slot)

  datatype Progress =
    | Suspended(handle: Handle, status: WaitStatus)
    | Finished(answer: Answer)

  const COMMANDS_OUT_OF_SYNC := 2014

  /** A finished call answers in the slot type of its kind; a stored result exists and errno is clear. */
  predicate Fits(kind: Kind, a: Answer) {
    && a.slot.PtrSlot? == Sentinel(kind).PtrSlot?
    && (kind == Storing && a.slot.target.Some? ==>
          a.slot.target.value < |a.handle.results| && a.handle.errno == 0)
  }

  // Effects of the calls.

  /** Moves the cursor to the next reply; a failed statement ends the query. */
  function Advance(h: Handle, replies: Replies): Answer {
    var h1 := h.(later := replies[1..], errno := 0);
    match replies[0]
    case Rows(t) => Answer(h1.(unread := Some(replies[0]), fieldCount := |t.fields|), IntSlot(0))
    case NoRows => Answer(h1.(unread := None, fieldCount := 0), IntSlot(0))
    case BrokenRows(n, _) => Answer(h1.(unread := Some(replies[0]), fieldCount := n), IntSlot(0))
    case Failure(e) =>
      Answer(h1.(later := [], unread := None, fieldCount := 0, errno := e), IntSlot(1))
  }

  /** Stores the announced table as a fresh native result. */
  function Store(h: Handle): Answer {
    match h.unread
    case Some(Rows(t)) =>
      Answer(h.(unread := None, errno := 0, results := h.results + [t]), PtrSlot(Some(|h.results|)))
    case Some(BrokenRows(_, e)) => Answer(h.(unread := None, later := [], errno := e), PtrSlot(None))
    case _ => Answer(h, PtrSlot(None))
  }

  function Reset(h: Handle): Handle {
    h.(fieldCount := 0, unread := None, later := [], errno := 0, inflight := None)
  }

  /** The effect of call number `n` once it is finished. */
  function Perform(h: Handle, call: Call, n: nat): (a: Answer)
    ensures Fits(call.Kind(), a)
  {
    match call
    case ConnectCall(target, flags) =>
      var e := h.server.connect(n, target, flags);
      if e == 0 then Answer(Reset(h), PtrSlot(Some(0))) else Answer(h.(errno := e), PtrSlot(None))
    case QueryCall(stmt) => Advance(h, h.server.query(n, stmt))
    case NextCall => if h.later == [] then Answer(h.(errno := 0), IntSlot(-1)) else Advance(h, h.later)
    case StoreCall => Store(h)
  }

  /** A blocking call. */
  function Block(h: Handle, call: Call): (a: Answer)
    ensures Fits(call.Kind(), a)
  {
    Perform(h.(calls := h.calls + 1, inflight := None), call, h.calls)
  }

  predicate Announced(h: Handle) {
    h.unread.Some? && (h.unread.value.Rows? || h.unread.value.BrokenRows?)
  }

  /** The suspensions call number `h.calls` goes through if it is started now; storing nothing needs no I/O. */
  function Suspensions(h: Handle, call: Call): seq<WaitStatus> {
    if call.StoreCall? && !Announced(h) then [] else h.server.waits(h.calls, call)
  }

  /** The _start form. A suspended call has errno 0; starting a call abandons a suspended one. */
  function Start(h: Handle, call: Call): (p: Progress)
    ensures p.Finished? ==> Fits(call.Kind(), p.answer)
  {
    var waits := Suspensions(h, call);
    if waits == [] then Finished(Block(h, call))
    else
      var flight := Flight(call, h.calls, waits[1..]);
      Suspended(h.(calls := h.calls + 1, errno := 0, inflight := Some(flight)), waits[0])
  }

  /** The _cont form. Continuing a call that is not suspended reports commands out of sync. */
  function Continue(h: Handle, kind: Kind): (p: Progress)
    ensures p.Finished? ==> Fits(kind, p.answer)
  {
    match h.inflight
    case Some(Flight(call, n, waits)) =>
      if call.Kind() != kind then OutOfSync(h, kind)
      else if waits == [] then Finished(Perform(h.(inflight := None), call, n))
      else Suspended(h.(errno := 0, inflight := Some(Flight(call, n, waits[1..]))), waits[0])
    case None => OutOfSync(h, kind)
  }

  function OutOfSync(h: Handle, kind: Kind): Progress {
    Finished(Answer(h.(errno := COMMANDS_OUT_OF_SYNC), Sentinel(kind)))
  }

  function FreeNative(h: Handle, id: nat): Handle {
    h.(freed := h.freed + [id])
  }

  predicate MoreResults(h: Handle) {
    h.later != []
  }

  /** The error a finished call is reported with. */
  function ErrorOf(a: Answer): ErrorCode {
    if a.slot.Failing() then ErrorCode(a.handle.errno, ClientCategory) else SUCCESS
  }
}
