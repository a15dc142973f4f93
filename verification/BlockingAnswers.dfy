/**
 What the operations answer, told from what the server answers: the error code,
 the result set and the connection each blocking operation leaves, and what a
 composed operation has already done to the connection while it is suspended.
 */
module BlockingAnswers {
  import opened ErrorCodes
  import opened MysqlLibrary
  import opened ConnectionState
  import opened ComposedOps
  import opened ResultCursor

  /** No reply of an earlier query can be read any more. */
  predicate NothingToRead(h: Handle) {
    h.later == [] && h.unread.None? && h.fieldCount == 0
  }

  /** The native results freed once the one held, if any, has been. */
  function FreedWithHeld(c: Conn): seq<nat> {
    match c.last
    case None => c.mysql.freed
    case Some(id) => c.mysql.freed + [id]
  }

  // Open and connect.

  lemma {:induction false} OpenAnswers(c: Conn)
    ensures c.initialized ==> Open(c) == Outcome(c, SUCCESS, EMPTY_SET)
    ensures !c.initialized ==>
              var o, ok := Open(c), c.mysql.server.init(c.mysql.calls);
              && o.ec == (if ok then SUCCESS else INITIALIZATION_ERROR) && o.rs == EMPTY_SET
              && o.conn == c.(mysql := o.conn.mysql, initialized := ok) && NothingToRead(o.conn.mysql)
              && o.conn.mysql.results == c.mysql.results && o.conn.mysql.freed == c.mysql.freed
  {
  }

  lemma {:induction false} SetOptionAnswers(c: Conn)
    ensures var o, errno := SetOption(c), c.mysql.server.option(c.mysql.calls);
            if !c.initialized then o == Outcome(c, NOT_INITIALIZED, EMPTY_SET)
            else if errno == 0 then o == Outcome(c, SUCCESS, EMPTY_SET)
            else
              && o.ec == ErrorCode(errno, ClientCategory) && o.rs == EMPTY_SET
              && o.conn == c.(mysql := c.mysql.(errno := errno))
  {
  }

  /** What an attempt to connect, with library call `n`, does to an open connection, refused or not. */
  ghost predicate Connects(c: Conn, n: nat, target: Target, flags: Flags, o: Outcome) {
    var e := c.mysql.server.connect(n, target, flags);
    && o.ec == (if e == 0 then SUCCESS else ErrorCode(e, ClientCategory)) && o.rs == EMPTY_SET
    && o.conn == c.(mysql := o.conn.mysql, flags := flags)
    && o.conn.mysql.errno == e && o.conn.mysql.results == c.mysql.results && o.conn.mysql.freed == c.mysql.freed
    && if e == 0 then NothingToRead(o.conn.mysql)
       else o.conn.mysql.later == c.mysql.later && o.conn.mysql.unread == c.mysql.unread
  }

  /** A refused attempt reports the errno of the library, and the flags are recorded all the same. */
  lemma {:induction false} ConnectAnswers(c: Conn, target: Target, flags: Flags)
    requires c.initialized
    ensures Connects(c, c.mysql.calls, target, flags, Connect(c, target, flags))
  {
  }

  /** A closed connection is opened first; if that fails its flags stay and nothing is attempted. */
  lemma {:induction false} ConnectOpensFirst(c: Conn, target: Target, flags: Flags)
    requires !c.initialized
    ensures var o := Connect(c, target, flags);
            if c.mysql.server.init(c.mysql.calls) then
              Connects(Open(c).conn, c.mysql.calls + 1, target, flags, o)
            else
              && o.ec == INITIALIZATION_ERROR && o.rs == EMPTY_SET
              && o.conn.flags == c.flags && !o.conn.initialized && o.conn.mysql.calls == c.mysql.calls + 1
  {
    OpenAnswers(c);
  }

  // Query, the first store, and both in one.

  /** A query frees what was held and rewinds the cursor, then stands at its first reply or reports its error. */
  lemma {:induction false} QueryAnswers(c: Conn, stmt: string)
    ensures !c.initialized ==> Query(c, stmt) == Outcome(c, NOT_INITIALIZED, EMPTY_SET)
    ensures c.initialized ==>
              var replies := c.mysql.server.query(c.mysql.calls, stmt);
              var o := Query(c, stmt);
              && o.conn == c.(mysql := o.conn.mysql, firstStored := false, last := None) && o.rs == EMPTY_SET
              && o.conn.mysql.freed == FreedWithHeld(c) && o.conn.mysql.results == c.mysql.results
              && if replies[0].Failure? then
                   o.ec == ErrorCode(replies[0].errno, ClientCategory) && NothingToRead(o.conn.mysql)
                 else
                   o.ec == SUCCESS && StandsAt(o.conn.mysql, replies)
  {
    if c.initialized {
      var c1 := FreeResult(c);
      CallsMove(c1.mysql.(calls := c1.mysql.calls + 1, inflight := None), QueryCall(stmt), c.mysql.calls,
                c.mysql.server.query(c.mysql.calls, stmt));
    }
  }

  /** The first store_result after a query, on any connection. */
  lemma {:induction false} FirstStoreAnswers(c: Conn, replies: seq<Reply>)
    requires !c.firstStored && StandsAt(c.mysql, replies)
    ensures var o := StoreResult(c, SUCCESS);
            && o.conn.firstStored
            && if Readable(replies[0]) then !o.ec.Failed() && Shows(o.rs, replies[0])
               else o.ec == ErrorCode(ErrnoOf(replies[0]), ClientCategory) && o.rs == EMPTY_SET
  {
    StoreShows(c.(firstStored := true), replies);
  }

  /** query_result answers with the first reply to the statement, or with its error. */
  lemma {:induction false} QueryResultAnswers(c: Conn, stmt: string)
    ensures !c.initialized ==> QueryResult(c, stmt) == Outcome(c, NOT_INITIALIZED, EMPTY_SET)
    ensures c.initialized ==>
              var reply := c.mysql.server.query(c.mysql.calls, stmt)[0];
              var o := QueryResult(c, stmt);
              && (o.conn.firstStored <==> !reply.Failure?)
              && if Readable(reply) then !o.ec.Failed() && Shows(o.rs, reply)
                 else o.ec == ErrorCode(ErrnoOf(reply), ClientCategory) && o.rs == EMPTY_SET
  {
    QueryAnswers(c, stmt);
    var o := Query(c, stmt);
    if c.initialized && !o.ec.Failed() {
      FirstStoreAnswers(o.conn, c.mysql.server.query(c.mysql.calls, stmt));
    }
  }

  // Close.

  /** Nothing of what the connection was survives a close but its flags and the record of its results. */
  lemma {:induction false} CloseForgets(c: Conn)
    ensures var c' := Close(c);
            && !c'.initialized && !c'.firstStored && c'.last.None? && c'.token > c.token && c'.flags == c.flags
            && c'.mysql.freed == FreedWithHeld(c) && c'.mysql.results == c.mysql.results
            && (c.initialized ==> NothingToRead(c'.mysql) && c'.mysql.inflight.None?)
            && !HasMoreResults(c')
  {
  }

  // Composed operations, at their first suspension.

  /**
   An operation that is suspended in its first turn has recorded its flags, or has
   freed what was held and set the cursor, before anything is known of the outcome.
   */
  lemma {:induction false} FirstSuspension(c: Conn, op: Op)
    requires CursorOk(c) && Enter(c, op).Suspend?
    ensures var turn := Enter(c, op);
            match op
            case ConnectOp(_, flags) =>
              && turn.phase == Connecting && turn.conn.flags == flags
              && turn.conn.last == c.last && turn.conn.firstStored == c.firstStored
            case QueryOp(_) =>
              turn.phase == Querying && turn.conn.last.None? && !turn.conn.firstStored && turn.conn.flags == c.flags
            case QueryResultOp(_) =>
              && (turn.phase == Querying || turn.phase == Storing)
              && turn.conn.last.None? && turn.conn.firstStored == (turn.phase == Storing) && turn.conn.flags == c.flags
            case StoreOp =>
              && (turn.phase == Advancing || turn.phase == Storing)
              && turn.conn.last.None? && turn.conn.firstStored && turn.conn.flags == c.flags
  {
  }
}
