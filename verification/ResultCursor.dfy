/**
 The cursor over the results of a query: what iterating over a connector visits,
 and what happens at a failed statement and past the end.
 */
module ResultCursor {
  import opened ErrorCodes
  import opened MysqlLibrary
  import opened ConnectionState

  // Iteration.

  /** The result sets visited, the error thrown if any, and the connection afterwards. */
  datatype Visit = Visit(sets: seq<View>, error: Option<ErrorCode>, conn: Conn)

  /** From the iterator's constructor to the end iterator: store_result as long as there are more results. */
  function VisitAll(c: Conn): Visit
    decreases if c.firstStored then 0 else 1, |c.mysql.later|
  {
    if !HasMoreResults(c) then Visit([], None, c)
    else
      var o := StoreResult(c, SUCCESS);
      if o.ec.Failed() then Visit([], Some(o.ec), o.conn)
      else
        var rest := VisitAll(o.conn);
        Visit([o.rs] + rest.sets, rest.error, rest.conn)
  }

  predicate Readable(r: Reply) {
    r.Rows? || r.NoRows?
  }

  /** The columns and rows a caller should see for a readable reply. */
  predicate Shows(v: View, r: Reply)
    requires Readable(r)
  {
    match r
    case NoRows => v == EMPTY_SET
    case Rows(t) => Mirrors(v.rows, t.rows) && v.fields == if t.rows == [] then [] else t.fields
  }

  function ErrnoOf(r: Reply): int
    requires !Readable(r)
  {
    match r
    case BrokenRows(_, e) => e
    case Failure(e) => e
  }

  /** How many replies can be read before the first that fails. */
  function ReadableCount(replies: seq<Reply>): (n: nat)
    ensures n <= |replies|
    ensures forall i | 0 <= i < n :: Readable(replies[i])
    ensures n < |replies| ==> !Readable(replies[n])
  {
    if replies == [] || !Readable(replies[0]) then 0 else 1 + ReadableCount(replies[1..])
  }

  /** The visit shows the readable replies in order, and ends with the error of the first that is not. */
  predicate Covers(v: Visit, replies: seq<Reply>) {
    var n := ReadableCount(replies);
    && |v.sets| == n
    && (forall i | 0 <= i < n :: Shows(v.sets[i], replies[i]))
    && v.error == if n == |replies| then None else Some(ErrorCode(ErrnoOf(replies[n]), ClientCategory))
  }

  /** The handle stands at the first of `replies`, none of which has been stored. */
  predicate StandsAt(h: Handle, replies: seq<Reply>) {
    && replies != [] && !replies[0].Failure? && h.errno == 0 && h.later == replies[1..]
    && h.unread == if replies[0].NoRows? then None else Some(replies[0])
  }

  /**
   A finished query, or a move to a reply that is there, leaves the handle at the
   first of the replies; if that statement failed its error is reported and nothing
   of the query is left.
   */
  lemma {:induction false} CallsMove(h: Handle, call: Call, n: nat, replies: seq<Reply>)
    requires match call
             case QueryCall(stmt) => replies == h.server.query(n, stmt)
             case NextCall => replies == h.later && replies != []
             case _ => false
    ensures var a := Perform(h, call, n);
            if replies[0].Failure? then
              && ErrorOf(a) == ErrorCode(replies[0].errno, ClientCategory)
              && a.handle.later == [] && a.handle.unread.None? && a.handle.fieldCount == 0
            else !ErrorOf(a).Failed() && StandsAt(a.handle, replies)
  {
  }

  predicate MultiResult(c: Conn) {
    c.flags.multiResults || c.flags.multiStatements
  }

  lemma {:induction false} CoversNext(v: Visit, first: View, replies: seq<Reply>)
    requires replies != [] && Readable(replies[0]) && Shows(first, replies[0]) && Covers(v, replies[1..])
    ensures Covers(Visit([first] + v.sets, v.error, v.conn), replies)
  {
  }

  /** Storing what the handle stands at shows it, or reports its error. */
  lemma {:induction false} StoreShows(c: Conn, replies: seq<Reply>)
    requires StandsAt(c.mysql, replies)
    ensures var o := StoreCurrent(c);
            && o.conn.mysql.later == (if Readable(replies[0]) then replies[1..] else [])
            && o.conn.firstStored == c.firstStored && o.conn.flags == c.flags && o.conn.initialized == c.initialized
            && o.conn.mysql.server == c.mysql.server && o.conn.mysql.inflight.None?
            && if Readable(replies[0]) then !o.ec.Failed() && Shows(o.rs, replies[0])
               else o.ec == ErrorCode(ErrnoOf(replies[0]), ClientCategory) && o.rs == EMPTY_SET
  {
  }

  /** Once the first result is stored, the rest of the query is visited in order. */
  lemma {:induction false} VisitRest(c: Conn, replies: seq<Reply>)
    requires c.initialized && MultiResult(c) && c.firstStored && c.mysql.later == replies
    ensures Covers(VisitAll(c), replies)
    decreases |replies|
  {
    if replies != [] {
      var c1 := FreeResult(c);
      var a := Block(c1.mysql, NextCall);
      var c2 := c1.(mysql := a.handle);
      if !replies[0].Failure? {
        assert StandsAt(c2.mysql, replies);
        StoreShows(c2, replies);
        if Readable(replies[0]) {
          VisitRest(StoreCurrent(c2).conn, replies[1..]);
          CoversNext(VisitAll(StoreCurrent(c2).conn), StoreCurrent(c2).rs, replies);
        }
      }
    }
  }

  /**
   Iteration: after a successful query on a multi-result connection, iterating
   visits exactly the results before the first statement that fails, in server
   order, and then throws its error; if none fails it visits all of them and ends.
   */
  lemma {:induction false} IterationVisitsAll(c: Conn, stmt: string)
    requires c.initialized && MultiResult(c) && !Query(c, stmt).ec.Failed()
    ensures Covers(VisitAll(Query(c, stmt).conn), c.mysql.server.query(c.mysql.calls, stmt))
  {
    var c1 := Query(c, stmt).conn;
    var replies := c.mysql.server.query(c.mysql.calls, stmt);
    assert StandsAt(c1.mysql, replies);
    var c2 := c1.(firstStored := true);
    StoreShows(c2, replies);
    if Readable(replies[0]) {
      VisitRest(StoreCurrent(c2).conn, replies[1..]);
      CoversNext(VisitAll(StoreCurrent(c2).conn), StoreCurrent(c2).rs, replies);
    }
  }

  /** On a single-statement connection one result is visited iff the statement has columns. */
  lemma {:induction false} SingleVisitsOne(c: Conn, stmt: string)
    requires c.initialized && !MultiResult(c) && !Query(c, stmt).ec.Failed()
    ensures var reply := c.mysql.server.query(c.mysql.calls, stmt)[0];
            var v := VisitAll(Query(c, stmt).conn);
            match reply
            case Rows(_) => |v.sets| == 1 && Shows(v.sets[0], reply) && v.error.None?
            case NoRows => v.sets == [] && v.error.None?
            case BrokenRows(_, e) => v.sets == [] && v.error == Some(ErrorCode(e, ClientCategory))
            case Failure(_) => false
  {
    var c1 := Query(c, stmt).conn;
    StoreShows(c1.(firstStored := true), c.mysql.server.query(c.mysql.calls, stmt));
  }

  // The end of a query.

  /**
   When an iteration is over, however the query and the iteration ended, the guard
   of the past-the-end branch holds, and a further call reports just that.
   */
  lemma {:induction false} IterationUsesUp(c: Conn, stmt: string, ec: ErrorCode)
    ensures var c1 := Query(c, stmt).conn;
            var end := VisitAll(c1).conn;
            && !HasMoreResults(end)
            && (HasMoreResults(c1) ==> StoreResult(end, ec) == Outcome(FreeResult(end), NO_MORE_RESULTS, EMPTY_SET))
  {
    var c1 := Query(c, stmt).conn;
    if HasMoreResults(c1) {
      var o := StoreResult(c1, SUCCESS);
      if !o.ec.Failed() { RestUsesUp(o.conn); }
    }
  }

  lemma {:induction false} RestUsesUp(c: Conn)
    requires c.firstStored
    ensures !HasMoreResults(VisitAll(c).conn) && VisitAll(c).conn.firstStored
    decreases |c.mysql.later|
  {
    if HasMoreResults(c) {
      var o := StoreResult(c, SUCCESS);
      NextMoves(c);
      if !o.ec.Failed() { RestUsesUp(o.conn); }
    }
  }

  /** A call after the first consumes one reply, or all of them if it fails. */
  lemma {:induction false} NextMoves(c: Conn)
    requires c.firstStored && HasMoreResults(c)
    ensures var o := StoreResult(c, SUCCESS);
            && o.conn.firstStored && |o.conn.mysql.later| < |c.mysql.later|
            && (o.ec.Failed() ==> o.conn.mysql.later == [])
  {
  }

  /** One call past the end reports so, frees what was held, and moves nothing; the next one finds the same. */
  lemma {:induction false} PastTheEnd(c: Conn, ec: ErrorCode)
    requires c.initialized && c.firstStored
    ensures (StoreResult(c, ec) == Outcome(FreeResult(c), NO_MORE_RESULTS, EMPTY_SET)) <==> !HasMoreResults(c)
    ensures !HasMoreResults(c) ==>
              && !HasMoreResults(FreeResult(c))
              && StoreResult(FreeResult(c), ec) == Outcome(FreeResult(c), NO_MORE_RESULTS, EMPTY_SET)
  {
  }

  /** The connection after `n` calls of store_result, each with a clear error code. */
  function AfterCalls(c: Conn, n: nat): Conn {
    if n == 0 then c else StoreResult(AfterCalls(c, n - 1), SUCCESS).conn
  }

  /** What the call that stores reply number `i`, or reports its error, returns. */
  predicate Answers(o: Outcome, replies: seq<Reply>, i: nat) {
    var n := ReadableCount(replies);
    if i < n then !o.ec.Failed() && Shows(o.rs, replies[i])
    else if i == n < |replies| then o.ec == ErrorCode(ErrnoOf(replies[n]), ClientCategory) && o.rs == EMPTY_SET
    else o.ec == NO_MORE_RESULTS && o.rs == EMPTY_SET
  }

  /** After `i` > 0 calls the cursor is before reply number `i`, or at the end if one of them failed. */
  predicate Before(c: Conn, replies: seq<Reply>, i: nat) {
    && c.initialized && MultiResult(c) && c.firstStored
    && c.mysql.later == if i <= ReadableCount(replies) && i <= |replies| then replies[i..] else []
  }

  lemma {:induction false} ReadableSuffix(replies: seq<Reply>, i: nat)
    requires i <= ReadableCount(replies)
    ensures ReadableCount(replies[i..]) == ReadableCount(replies) - i
    decreases i
  {
    if i == 0 {
      assert replies[0..] == replies;
    } else {
      ReadableSuffix(replies[1..], i - 1);
      assert replies[1..][i - 1..] == replies[i..];
    }
  }

  lemma {:induction false} FirstCall(c: Conn, replies: seq<Reply>)
    requires c.initialized && MultiResult(c) && !c.firstStored && StandsAt(c.mysql, replies)
    ensures var o := StoreResult(c, SUCCESS); Answers(o, replies, 0) && Before(o.conn, replies, 1)
  {
    StoreShows(c.(firstStored := true), replies);
  }

  lemma {:induction false} NextCalls(c: Conn, replies: seq<Reply>, i: nat)
    requires i > 0 && Before(c, replies, i)
    ensures var o := StoreResult(c, SUCCESS); Answers(o, replies, i) && Before(o.conn, replies, i + 1)
    ensures i > ReadableCount(replies) || i == |replies| ==> StoreResult(c, SUCCESS).conn == FreeResult(c)
  {
    if i > ReadableCount(replies) || i == |replies| {
      PastTheEnd(c, SUCCESS);
    } else {
      var rest := replies[i..];
      ReadableSuffix(replies, i);
      var c1 := FreeResult(c);
      var c2 := c1.(mysql := Block(c1.mysql, NextCall).handle);
      if !rest[0].Failure? {
        assert StandsAt(c2.mysql, rest);
        StoreShows(c2, rest);
      }
    }
  }

  lemma {:induction false} CallsBefore(c: Conn, replies: seq<Reply>, i: nat)
    requires c.initialized && MultiResult(c) && !c.firstStored && StandsAt(c.mysql, replies) && i > 0
    ensures Before(AfterCalls(c, i), replies, i)
  {
    if i == 1 {
      FirstCall(c, replies);
      assert AfterCalls(c, 0) == c;
    } else {
      CallsBefore(c, replies, i - 1);
      NextCalls(AfterCalls(c, i - 1), replies, i - 1);
    }
  }

  /**
   Successive calls: after a successful query on a multi-result connection call
   number `i` of store_result, for every `i`, shows reply `i` as long as all before
   can be read, then reports the error of the first that cannot, with an empty set,
   and from then on, or past the last reply, reports that there are no more results
   and does nothing but free the result held.
   */
  lemma {:induction false} SuccessiveCalls(c: Conn, stmt: string, i: nat)
    requires c.initialized && MultiResult(c) && !Query(c, stmt).ec.Failed()
    ensures var replies := c.mysql.server.query(c.mysql.calls, stmt);
            var before := AfterCalls(Query(c, stmt).conn, i);
            var o := StoreResult(before, SUCCESS);
            && Answers(o, replies, i)
            && (i > ReadableCount(replies) || i == |replies| ==> o.conn == FreeResult(before))
  {
    var c1 := Query(c, stmt).conn;
    var replies := c.mysql.server.query(c.mysql.calls, stmt);
    assert StandsAt(c1.mysql, replies);
    if i == 0 {
      FirstCall(c1, replies);
      assert AfterCalls(c1, 0) == c1;
    } else {
      CallsBefore(c1, replies, i);
      NextCalls(AfterCalls(c1, i), replies, i);
    }
  }

  // Before a query, and without a connection.

  /**
   Iterating right after connecting, before any query, visits nothing exactly on a
   single-result connection or one that stored a first result before; otherwise it
   visits one empty set that no statement produced.
   */
  lemma {:induction false} BeforeAnyQuery(c: Conn, target: Target, flags: Flags)
    requires !Connect(c, target, flags).ec.Failed()
    ensures var v := VisitAll(Connect(c, target, flags).conn);
            && (v.sets == [] <==> c.firstStored || !(flags.multiResults || flags.multiStatements))
            && (v.sets != [] ==> v.sets == [EMPTY_SET]) && v.error.None?
  {
    var c1 := Connect(c, target, flags).conn;
    if HasMoreResults(c1) {
      var o := StoreResult(c1, SUCCESS);
      assert !HasMoreResults(o.conn);
    }
  }

  /**
   The blocking store_result does not ask whether the connection is open: on a
   closed one it calls the library exactly if no first result was stored and the
   caller's code is clear.
   */
  lemma {:induction false} ClosedStore(c: Conn, ec: ErrorCode)
    requires !c.initialized
    ensures var c' := StoreResult(c, ec).conn;
            && (c'.mysql.calls != c.mysql.calls <==> !c.firstStored && !ec.Failed())
            && (c'.mysql.calls == c.mysql.calls ==>
                  c' == FreeResult(c).(firstStored := true) || c' == c.(firstStored := true))
    ensures c.firstStored ==> StoreResult(c, ec) == Outcome(FreeResult(c), NO_MORE_RESULTS, EMPTY_SET)
  {
  }

  /**
   The caller's error code: store_result called with a code that is already set
   does what it does with a clear one exactly if the first result was stored
   before; otherwise it hands the old code back and stores nothing.
   */
  lemma {:induction false} StaleErrorCode(c: Conn, ec: ErrorCode)
    ensures (StoreResult(c, ec) == StoreResult(c, SUCCESS)) <==> (c.firstStored || !ec.Failed())
    ensures !c.firstStored && ec.Failed() ==>
              StoreResult(c, ec) == Outcome(c.(firstStored := true), ec, EMPTY_SET)
  {
  }
}
