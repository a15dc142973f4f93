/**
 The iterator over the results of a connector, updated in place. A whole
 iteration, from a fresh iterator to the end iterator, is proved to be the visit
 of module ResultCursor, and to terminate.
 */
module ResultsIterators {
  import opened ErrorCodes
  import opened MysqlLibrary
  import opened ConnectionState
  import opened Connector
  import opened ResultCursor

  class ResultsIterator {
    var connector: Connection?
    var resultSet: ResultSet?
    var end: bool

    constructor End()
      ensures connector == null && end
    {
      connector, resultSet, end := null, null, true;
    }

    constructor At(connector: Connection)
      ensures this.connector == connector && !end && resultSet == null
    {
      this.connector, resultSet, end := connector, null, false;
    }

    /** The constructor over a connector, which throws unless the connector is open and has a first result or none. */
    static method Begin(connector: Connection) returns (it: ResultsIterator, thrown: Option<ErrorCode>)
      modifies connector`mysql, connector`lastResult, connector`firstResultStored
      ensures fresh(it) && it.connector == connector
      ensures !old(connector.initialized) ==>
                thrown == Some(NOT_INITIALIZED) && connector.State() == old(connector.State())
      ensures old(connector.initialized) ==> Advanced(old(connector.State()), connector.State(), it, thrown)
    {
      it := new ResultsIterator.At(connector);
      if !connector.initialized {
        thrown := Some(NOT_INITIALIZED);
      } else {
        thrown := it.Increment();
      }
    }

    /** The iterator moved to the next result if there is one and it could be read, and to the end if there is none. */
    static ghost predicate Advanced(before: Conn, after: Conn, it: ResultsIterator, thrown: Option<ErrorCode>)
      reads it, it.resultSet, if it.resultSet != null then {it.resultSet.values} else {}
    {
      if !HasMoreResults(before) then thrown.None? && it.end && after == before
      else
        var o := ConnectionState.StoreResult(before, SUCCESS);
        && after == o.conn && !it.end
        && if o.ec.Failed() then thrown == Some(o.ec)
           else thrown.None? && it.resultSet != null && it.resultSet.View() == o.rs
    }

    method Increment() returns (thrown: Option<ErrorCode>)
      requires connector != null && !end
      modifies this, connector`mysql, connector`lastResult, connector`firstResultStored
      ensures connector == old(connector)
      ensures Advanced(old(connector.State()), connector.State(), this, thrown)
    {
      thrown := None;
      if !connector.HasMoreResults() {
        end := true;
      } else {
        thrown := StoreResult();
      }
    }

    /** The throwing store_result of the connector; the iterator is only assigned if nothing is thrown. */
    method StoreResult() returns (thrown: Option<ErrorCode>)
      requires connector != null
      modifies this`resultSet, connector`mysql, connector`lastResult, connector`firstResultStored
      ensures var o := ConnectionState.StoreResult(old(connector.State()), SUCCESS);
              && connector.State() == o.conn
              && if o.ec.Failed() then thrown == Some(o.ec) && resultSet == old(resultSet)
                 else thrown.None? && resultSet != null && resultSet.View() == o.rs
    {
      var rs, ec := connector.StoreResult(SUCCESS);
      if ec.Failed() { return Some(ec); }
      resultSet := rs;
      thrown := None;
    }

    /** Where the iterator stands, having visited `sets` of `all`. */
    ghost predicate Standing(all: Visit, sets: seq<View>)
      reads this, connector, resultSet, if resultSet != null then {resultSet.values} else {}
    {
      && connector != null
      && (!end ==> connector.firstResultStored && resultSet != null)
      && Visiting(all, sets, if end then None else Some(resultSet.View()), connector.State())
    }

    predicate Equal(other: ResultsIterator): (equal: bool)
      reads this, other
      ensures end && other.end ==> equal
      ensures end != other.end ==> !equal
      ensures !end && !other.end ==> (equal <==> connector == other.connector)
    {
      end == other.end && (end || connector == other.connector)
    }
  }

  /** Storing a result moves the cursor on. */
  lemma {:induction false} StoreMoves(c: Conn)
    requires HasMoreResults(c)
    ensures var c' := StoreResult(c, SUCCESS).conn;
            && c'.firstStored && c'.initialized
            && (!c.firstStored || |c'.mysql.later| < |c.mysql.later|)
  {
  }

  /** The sets visited so far, and those still to come: the one the iterator stands at, unless it is at the end. */
  ghost predicate Visiting(all: Visit, sets: seq<View>, at: Option<View>, c: Conn) {
    match at
    case None => all == Visit(sets, None, c)
    case Some(v) => var rest := VisitAll(c); all == Visit(sets + [v] + rest.sets, rest.error, rest.conn)
  }

  /** One increment of an iterator, on the sets visited. */
  lemma {:induction false} VisitingNext(all: Visit, sets: seq<View>, v: View, c: Conn)
    requires Visiting(all, sets, Some(v), c) && c.firstStored
    ensures if !HasMoreResults(c) then Visiting(all, sets + [v], None, c)
            else
              var o := StoreResult(c, SUCCESS);
              if o.ec.Failed() then all == Visit(sets + [v], Some(o.ec), o.conn)
              else Visiting(all, sets + [v], Some(o.rs), o.conn)
  {
  }

  /** A fresh iterator, advanced for the first time. */
  lemma {:induction false} VisitingFirst(c: Conn)
    ensures if !HasMoreResults(c) then Visiting(VisitAll(c), [], None, c)
            else
              var o := StoreResult(c, SUCCESS);
              if o.ec.Failed() then VisitAll(c) == Visit([], Some(o.ec), o.conn)
              else Visiting(VisitAll(c), [], Some(o.rs), o.conn)
  {
  }

  /** The loop to the end iterator, as a caller writes it. */
  method IterateFrom(it: ResultsIterator, last: ResultsIterator, ghost all: Visit)
    returns (sets: seq<View>, thrown: Option<ErrorCode>)
    requires last.end && it != last && it.connector != null && it.Standing(all, [])
    modifies it, it.connector
    ensures it.connector == old(it.connector) && Visit(sets, thrown, it.connector.State()) == all
  {
    hide VisitAll, ConnectionState.StoreResult;
    sets, thrown := [], None;
    while !it.Equal(last)
      invariant thrown.None? && last.end && it.connector == old(it.connector) && it.Standing(all, sets)
      decreases |it.connector.mysql.later|, if it.end then 0 else 1
    {
      VisitingNext(all, sets, it.resultSet.View(), it.connector.State());
      if HasMoreResults(it.connector.State()) { StoreMoves(it.connector.State()); }
      sets := sets + [it.resultSet.View()];
      thrown := it.Increment();
      if thrown.Some? { return; }
    }
  }

  /** The loop over all result sets of a connector. */
  method Iterate(connector: Connection) returns (sets: seq<View>, thrown: Option<ErrorCode>)
    modifies connector
    ensures old(connector.initialized) ==> Visit(sets, thrown, connector.State()) == VisitAll(old(connector.State()))
    ensures !old(connector.initialized) ==>
              sets == [] && thrown == Some(NOT_INITIALIZED) && connector.State() == old(connector.State())
  {
    hide VisitAll, ConnectionState.StoreResult, Visiting;
    ghost var start := connector.State();
    VisitingFirst(start);
    if HasMoreResults(start) { StoreMoves(start); }
    var it, failure := ResultsIterator.Begin(connector);
    if failure.Some? { return [], failure; }
    var last := new ResultsIterator.End();
    sets, thrown := IterateFrom(it, last, VisitAll(start));
  }
}
