/**
 The waits registered for one connection: the stream descriptor and the timer,
 and what async_wait_mysql does to them.
 */
module Reactors {
  import opened ErrorCodes
  import opened MysqlLibrary
  import opened ConnectionState
  import opened ComposedOps

  /** A suspended composed operation, moved into the wait that will resume it; `event` is what it waits for. */
  datatype Task = Task(id: nat, conn: nat, token: nat, op: Op, phase: Kind, event: Status)

  /** `fd` is -1 while no socket is assigned to the descriptor. */
  datatype Reactor = Reactor(fd: int, descriptor: seq<Task>, timer: seq<Task>)

  const IDLE := Reactor(-1, [], [])

  datatype Registration = Registration(reactor: Reactor, aborted: seq<Task>, lost: bool)

  function Waits(r: Reactor): seq<Task> {
    r.descriptor + r.timer
  }

  /** At most one wait, and none on a descriptor without a socket. */
  predicate ReactorOk(r: Reactor) {
    |r.descriptor| + |r.timer| <= 1 && (r.descriptor != [] ==> r.fd >= 0)
  }

  /** The one event that is waited for when the library asks for `status`. */
  function EventOf(status: Status): Status {
    if status.read then READ else if status.write then WRITE else if status.timeout then TIMEOUT else FINISH
  }

  function Waiting(task: Task, status: Status): Task {
    task.(event := EventOf(status))
  }

  /** The reactor after a wait for `status` replaced whatever was registered. */
  function Register(r: Reactor, socket: nat, status: Status, task: Task): Registration {
    var fd := if status.read || status.write then socket else r.fd;
    if status.read || status.write then Registration(Reactor(fd, [Waiting(task, status)], []), Waits(r), false)
    else if status.timeout then Registration(Reactor(fd, [], [Waiting(task, status)]), Waits(r), false)
    else Registration(Reactor(fd, [], []), Waits(r), true)
  }

  /** A new wait aborts every earlier one of the connection; it is lost iff there is nothing to wait for. */
  lemma {:induction false} RegisterReplaces(r: Reactor, socket: nat, status: Status, task: Task)
    requires ReactorOk(r)
    ensures var reg := Register(r, socket, status, task);
            && ReactorOk(reg.reactor) && reg.lost == !Waitable(status)
            && multiset(Waits(reg.reactor)) + multiset(reg.aborted)
               == multiset(Waits(r)) + if reg.lost then multiset{} else multiset{Waiting(task, status)}
  {
  }

  /**
   Which wait it is: readability before writability, of the socket the handle has
   now, and only if neither is asked for the timer, with the descriptor as it was.
   */
  lemma {:induction false} RegisterTakes(r: Reactor, socket: nat, status: Status, task: Task)
    ensures Register(r, socket, status, task).lost <==> !status.read && !status.write && !status.timeout
    ensures var after := Register(r, socket, status, task).reactor;
            && (status.read ==> after == Reactor(socket, [task.(event := READ)], []))
            && (!status.read && status.write ==> after == Reactor(socket, [task.(event := WRITE)], []))
            && (!status.read && !status.write && status.timeout ==>
                  after == Reactor(r.fd, [], [task.(event := TIMEOUT)]))
            && (!status.read && !status.write && !status.timeout ==> after == Reactor(r.fd, [], []))
  {
  }
}
