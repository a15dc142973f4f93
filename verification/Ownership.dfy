/**
 Who owns the native results: every operation, blocking or a single turn of a
 composed one, keeps the account of allocated, freed and held results balanced
 and owns nothing before the first result is stored.
 */
module Ownership {
  import opened ErrorCodes
  import opened MysqlLibrary
  import opened ConnectionState
  import opened ComposedOps

  /** Only a connection whose first result counts as stored stores or moves on; a closed one has no call in flight. */
  predicate FlightOk(c: Conn) {
    match c.mysql.inflight
    case None => true
    case Some(f) => c.initialized && (f.call.StoreCall? || f.call.NextCall? ==> c.firstStored)
  }

  ghost predicate Sound(c: Conn) {
    Invariant(c) && FlightOk(c)
  }

  function Ids(n: nat): (ids: set<nat>)
    ensures forall i: nat :: i in ids <==> i < n
  {
    if n == 0 then {} else Ids(n - 1) + {n - 1}
  }

  function Elements(s: seq<nat>): (ids: set<nat>)
    ensures forall i: nat :: i in ids <==> i in s
  {
    set i | i in s
  }

  lemma {:induction false} IdsSize(n: nat)
    ensures |Ids(n)| == n
  {
    if n > 0 {
      IdsSize(n - 1);
    }
  }

  lemma {:induction false} DistinctSize(s: seq<nat>)
    requires forall i, j | 0 <= i < j < |s| :: s[i] != s[j]
    ensures |Elements(s)| == |s|
  {
    if s != [] {
      var last := |s| - 1;
      DistinctSize(s[..last]);
      assert s == s[..last] + [s[last]];
      assert Elements(s) == Elements(s[..last]) + {s[last]};
    }
  }

  lemma {:induction false} SubsetOfSameSize(a: set<nat>, b: set<nat>)
    requires a <= b && |a| == |b|
    ensures a == b
  {
    assert b == a + (b - a);
  }

  /** What the account means: every id ever allocated was freed or is the one held, never both. */
  lemma {:induction false} NothingLost(c: Conn, id: nat)
    requires Balanced(c)
    ensures id < |c.mysql.results| <==> (id in c.mysql.freed || c.last == Some(id))
    ensures id in c.mysql.freed ==> c.last != Some(id)
  {
    var n := |c.mysql.results|;
    var freed := Elements(c.mysql.freed);
    var held := if c.last.Some? then {c.last.value} else {};
    IdsSize(n);
    DistinctSize(c.mysql.freed);
    assert freed !! held && |freed + held| == n;
    SubsetOfSameSize(freed + held, Ids(n));
    assert id in Ids(n) <==> id in freed + held;
  }

  lemma {:induction false} FreeKeepsBalance(c: Conn)
    requires Balanced(c)
    ensures Balanced(FreeResult(c)) && FreeResult(c).last.None?
  {
  }

  /** A freshly stored result becomes the one held, the previous one being freed. */
  lemma {:induction false} StoreKeepsBalance(c: Conn, n: nat)
    requires Balanced(c)
    ensures var a := Perform(c.mysql, StoreCall, n);
            Balanced(ResetLast(c.(mysql := a.handle), a.slot.target))
  {
    var a := Perform(c.mysql, StoreCall, n);
    if a.slot.target.Some? {
      var c1 := FreeResult(c.(mysql := a.handle));
      assert a.handle.freed == c.mysql.freed;
    }
  }

  lemma {:induction false} NothingStored(h: Handle, call: Call, n: nat)
    requires !call.StoreCall? || Perform(h, call, n).slot.Failing()
    ensures var h' := Perform(h, call, n).handle; h'.results == h.results && h'.freed == h.freed
  {
  }

  lemma {:induction false} StoreCurrentSound(c: Conn)
    requires Sound(c) && c.initialized && c.firstStored
    ensures Sound(StoreCurrent(c).conn)
  {
  }

  lemma {:induction false} StoreResultSound(c: Conn, ec: ErrorCode)
    requires Sound(c) && c.initialized
    ensures Sound(StoreResult(c, ec).conn)
  {
    if !c.firstStored {
      if !ec.Failed() { StoreCurrentSound(c.(firstStored := true)); }
    } else {
      var c1 := FreeResult(c);
      var a := Block(c1.mysql, NextCall);
      if HasMoreResults(c1) && !ErrorOf(a).Failed() { StoreCurrentSound(c1.(mysql := a.handle)); }
    }
  }

  lemma {:induction false} QuerySound(c: Conn, stmt: string)
    requires Sound(c)
    ensures Sound(Query(c, stmt).conn)
  {
  }

  /** Every blocking operation keeps the account, whatever the server answers. */
  lemma {:induction false} BlockingSound(c: Conn, op: Op)
    requires Sound(c) && (op.StoreOp? ==> c.initialized)
    ensures Sound(Blocking(c, op).conn)
  {
    match op
    case ConnectOp(_, _) =>
    case QueryOp(stmt) => QuerySound(c, stmt);
    case StoreOp => StoreResultSound(c, SUCCESS);
    case QueryResultOp(stmt) =>
      QuerySound(c, stmt);
      var o := Query(c, stmt);
      if !o.ec.Failed() { StoreResultSound(o.conn, o.ec); }
  }

  /** After close nothing is held: every result ever allocated has been freed, once. */
  lemma {:induction false} CloseFreesAll(c: Conn)
    requires Sound(c)
    ensures var c' := Close(c);
            Sound(c') && !c'.initialized && forall id | 0 <= id < |c'.mysql.results| :: id in c'.mysql.freed
  {
    forall id | 0 <= id < |c.mysql.results| ensures id in Close(c).mysql.freed { NothingLost(Close(c), id); }
  }

  // Turns.

  lemma {:induction false} DeliverSound(c: Conn, h: Handle, n: nat)
    requires Invariant(c) && c.initialized && c.firstStored && h == c.mysql.(inflight := None)
    ensures var a := Perform(h, StoreCall, n); Sound(Deliver(c.(mysql := a.handle), a).conn)
  {
    var c0 := c.(mysql := h);
    StoreKeepsBalance(c0, n);
    NothingStoredUnlessDelivered(c0, n);
  }

  lemma {:induction false} NothingStoredUnlessDelivered(c: Conn, n: nat)
    ensures var a := Perform(c.mysql, StoreCall, n);
            a.slot.Failing() ==> a.handle.results == c.mysql.results && a.handle.freed == c.mysql.freed
  {
  }

  lemma {:induction false} BeginStoreSound(c: Conn)
    requires Sound(c) && c.initialized && c.firstStored
    ensures Sound(BeginStore(c).Conn())
  {
    var c1 := FreeResult(c);
    FreeKeepsBalance(c);
    if Start(c1.mysql, StoreCall).Finished? {
      var c2 := c1.(mysql := c1.mysql.(calls := c1.mysql.calls + 1));
      DeliverSound(c2, c2.mysql.(inflight := None), c1.mysql.calls);
    }
  }

  lemma {:induction false} BeginSound(c: Conn, op: Op, call: Call)
    requires Invariant(c) && c.initialized && !call.StoreCall? && (call.NextCall? ==> c.firstStored)
    ensures Sound(Begin(c, op, call).Conn())
  {
    hide After, Perform;
    var p := Start(c.mysql, call);
    match p
    case Suspended(h, _) =>
      assert h.results == c.mysql.results && h.freed == c.mysql.freed;
    case Finished(a) =>
      AfterSound(c, op, call, c.mysql.(calls := c.mysql.calls + 1, inflight := None), c.mysql.calls);
  }

  lemma {:induction false} AfterSound(c: Conn, op: Op, call: Call, h: Handle, n: nat)
    requires Invariant(c) && c.initialized && (call.StoreCall? || call.NextCall? ==> c.firstStored)
    requires h.inflight.None? && h.freed == c.mysql.freed && h.results == c.mysql.results
    ensures var a := Perform(h, call, n); Sound(After(c.(mysql := a.handle), op, call.Kind(), a).Conn())
  {
    var a := Perform(h, call, n);
    if call.StoreCall? {
      DeliverSound(c.(mysql := h), h, n);
    } else {
      NothingStored(h, call, n);
      if !ErrorOf(a).Failed() {
        if call.NextCall? { BeginStoreSound(c.(mysql := a.handle)); }
        if call.QueryCall? { BeginStoreSound(c.(mysql := a.handle, firstStored := true)); }
      }
    }
  }

  /** The first turn keeps the account. */
  lemma {:induction false} EnterSound(c: Conn, op: Op)
    requires Sound(c) && c.initialized
    ensures Sound(Enter(c, op).Conn())
  {
    var c1 := FreeResult(c);
    FreeKeepsBalance(c);
    match op
    case ConnectOp(target, flags) => BeginSound(c.(flags := flags), op, ConnectCall(target, flags));
    case QueryOp(stmt) => EnterQuery(c, op, stmt);
    case QueryResultOp(stmt) => EnterQuery(c, op, stmt);
    case StoreOp =>
      if !c.firstStored { BeginStoreSound(c.(firstStored := true)); }
      else if HasMoreResults(c1) { BeginSound(c1, op, NextCall); }
  }
  
  lemma {:induction false} EnterQuery(c: Conn, op: Op, stmt: string)
    requires Sound(c) && c.initialized
    ensures Sound(Begin(FreeResult(c).(firstStored := false), op, QueryCall(stmt)).Conn())
  {
    var c1 := FreeResult(c).(firstStored := false);
    FreeKeepsBalance(c);
    BeginSound(c1, op, QueryCall(stmt));
  }

  /**
   So does every later turn, of an operation of any age, in any phase, whatever
   happened to the connection in between.
   */
  lemma {:induction false} ResumeSound(c: Conn, op: Op, phase: Kind, token: nat, ec: ErrorCode)
    requires Sound(c)
    ensures Sound(Resume(c, op, phase, token, ec).Conn())
  {
    if token == c.token && !ec.Failed() {
      match c.mysql.inflight
      case None =>
      case Some(f) =>
        if f.call.Kind() == phase && f.waits == [] {
          AfterSound(c, op, f.call, c.mysql.(inflight := None), f.number);
        }
    }
  }
}
