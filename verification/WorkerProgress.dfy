/**
 Progress of the worker-thread service: working and delivering always come to an
 end, and then every operation that was queued or refused has been delivered
 exactly once, unless shutdown destroyed it.
 */
module WorkerProgress {
  import opened ErrorCodes
  import opened MysqlLibrary
  import opened ConnectionState
  import opened Ownership
  import opened WorkerService

  predicate Idle(s: Service) {
    s.queue == [] && s.main == []
  }

  /** A step of the worker or of the main loop for which there is something to do. */
  predicate Progressing(s: Service, step: Step) {
    match step
    case Work => s.queue != []
    case Deliver => s.main != []
    case _ => false
  }

  /** A queued operation has to be run and delivered, a posted one to be delivered. */
  function Left(s: Service): nat {
    2 * |s.queue| + |s.main|
  }

  /** Whatever is queued can be run: each such step is enabled, and brings the end closer. */
  lemma {:induction false} StepCloser(s: Service, step: Step)
    requires ServiceOk(s) && Progressing(s, step)
    ensures var s' := Apply(s, step);
            ServiceOk(s') && Left(s') < Left(s) && s'.log == s.log && s'.dropped == s.dropped && s'.running == s.running
  {
    StepOk(s, step);
    if step.Work? { WorkEnabled(s); }
  }

  /** A scheduler that lets the worker or the main loop go on as long as there is something to do. */
  ghost predicate Scheduler(pick: Service -> Step) {
    forall s: Service :: !Idle(s) ==> Progressing(s, pick(s))
  }

  /** Runs the service until nothing is queued or posted; that it is a function says that it always gets there. */
  ghost function Drain(s: Service, pick: Service -> Step): (end: Service)
    requires ServiceOk(s) && Scheduler(pick)
    ensures ServiceOk(end) && Idle(end)
    ensures end.log == s.log && end.dropped == s.dropped && end.running == s.running
    decreases Left(s)
  {
    if Idle(s) then s
    else
      StepCloser(s, pick(s));
      Drain(Apply(s, pick(s)), pick)
  }

  // Counting.

  function Occurrences(ids: seq<nat>, id: nat): nat {
    if ids == [] then 0
    else Occurrences(ids[..|ids| - 1], id) + if ids[|ids| - 1] == id then 1 else 0
  }

  /** How often the handler of an operation was run. */
  function Deliveries(delivered: seq<Completion>, id: nat): nat {
    if delivered == [] then 0
    else Deliveries(delivered[..|delivered| - 1], id) + if delivered[|delivered| - 1].id == id then 1 else 0
  }

  lemma {:induction false} OccurrencesSnoc(ids: seq<nat>, last: nat, id: nat)
    ensures Occurrences(ids + [last], id) == Occurrences(ids, id) + if last == id then 1 else 0
  {
    assert (ids + [last])[..|ids|] == ids;
  }

  lemma {:induction false} OccurrencesConcat(a: seq<nat>, b: seq<nat>, id: nat)
    ensures Occurrences(a + b, id) == Occurrences(a, id) + Occurrences(b, id)
  {
    if b == [] {
      assert a + b == a;
    } else {
      var last := |b| - 1;
      assert (a + b)[..|a| + last] == a + b[..last];
      OccurrencesConcat(a, b[..last], id);
    }
  }

  /** A delivery is one of a completion the worker posted, or of a refused operation. */
  lemma {:induction false} DeliveriesSplit(delivered: seq<Completion>, id: nat)
    ensures Deliveries(delivered, id)
            == Occurrences(PostedIds(delivered, true), id) + Occurrences(PostedIds(delivered, false), id)
  {
    if delivered != [] {
      var last := |delivered| - 1;
      DeliveriesSplit(delivered[..last], id);
      OccurrencesSnoc(PostedIds(delivered[..last], true), delivered[last].id, id);
      OccurrencesSnoc(PostedIds(delivered[..last], false), delivered[last].id, id);
      assert PostedIds(delivered[..last], true) + [] == PostedIds(delivered[..last], true);
      assert PostedIds(delivered[..last], false) + [] == PostedIds(delivered[..last], false);
    }
  }

  lemma {:induction false} FatedOccurrences(log: seq<Issued>, fate: Fate, id: nat)
    ensures Occurrences(Fated(log, fate), id) == if id < |log| && log[id].fate == fate then 1 else 0
  {
    if log != [] {
      var last := |log| - 1;
      FatedOccurrences(log[..last], fate, id);
      OccurrencesSnoc(Fated(log[..last], fate), last, id);
      assert Fated(log[..last], fate) + [] == Fated(log[..last], fate);
    }
  }

  /** With nothing queued or posted, each operation is accounted for exactly once. */
  lemma {:induction false} IdleOnce(s: Service, id: nat)
    requires LedgerOk(s) && Idle(s)
    ensures Deliveries(s.delivered, id) + Occurrences(s.dropped, id)
            == if id < |s.log| && s.log[id].fate != Ignored then 1 else 0
    ensures s.running ==> s.dropped == [] && (id < |s.log| ==> s.log[id].fate != Ignored)
    ensures s.work == 0
  {
    var posted := PostedIds(s.delivered, true);
    assert s.delivered + s.main == s.delivered && posted + JobIds(s.queue) + s.dropped == posted + s.dropped;
    DeliveriesSplit(s.delivered, id);
    OccurrencesConcat(posted, s.dropped, id);
    FatedOccurrences(s.log, Enqueued, id);
    FatedOccurrences(s.log, Refused, id);
    FatedOccurrences(s.log, Ignored, id);
  }

  /**
   Exactly once: after any run, letting the worker and the main loop go on in any
   order delivers every operation that was queued or refused exactly once, or
   shutdown dropped it; a service that was not shut down delivers all of them, and
   then nothing holds the main loop any more.
   */
  lemma {:induction false} ServedExactlyOnce(s: Service, steps: seq<Step>, pick: Service -> Step, id: nat)
    requires ServiceOk(s) && Scheduler(pick)
    ensures ServiceOk(Exec(s, steps))
    ensures var before := Exec(s, steps);
            var end := Drain(before, pick);
            && Deliveries(end.delivered, id) + Occurrences(end.dropped, id)
               == (if id < |before.log| && before.log[id].fate != Ignored then 1 else 0)
            && (before.running ==> Deliveries(end.delivered, id) == if id < |before.log| then 1 else 0)
            && end.dropped == before.dropped && end.work == 0
  {
    EveryRunOk(s, steps);
    IdleOnce(Drain(Exec(s, steps), pick), id);
  }
}
