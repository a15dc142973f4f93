# Verification model of the connection and result state machines

This project models how Amy drives a MySQL connection: the blocking operations
(`connect`, `query`, `store_result`, `query_result`, `has_more_results`, `close`,
`cancel`), the two ways the library makes them asynchronous, and the result sets
and iterators handed to callers. It proves that both asynchronous services do what
the blocking operations do, whatever the scheduling, and that nothing is lost, run
twice or freed twice on the way.

## How it is organised

| files | what they hold |
|---|---|
| `ErrorCodes.dfy`, `MysqlLibrary.dfy` | error codes; the client library as an abstract handle with blocking calls and start/continue pairs |
| `ConnectionState.dfy`, `Connector.dfy` | a connection as a value with the blocking operations as functions, and the connection, result set and row vector as objects updated in place and proved against those functions |
| `ComposedOps.dfy`, `ComposedHandlers.dfy`, `MariadbService.dfy` | the four composed operations of the non-blocking service: as a phase machine proved to refine the blocking operations, as the `step`/`switch`/`for(;;)` objects proved to perform exactly its turns, and the functions that issue them |
| `Reactors.dfy`, `EventLoop.dfy`, `LoopSafety.dfy`, `LoopProgress.dfy`, `LoopIsolation.dfy`, `LoopDelivery.dfy` | the event loop as a transition system over any number of connections, and the theorems about all its runs |
| `LoopCompletions.dfy`, `LoopSockets.dfy` | what the completions of the event loop carry, and where its waits are registered |
| `MariadbLoop.dfy` | the event loop with its objects: connections, suspended handlers and queues updated in place, each method proved to be one step of the transition system |
| `Ownership.dfy`, `ResultLife.dfy` | who owns the native results, and how long a result set stays alive |
| `WorkerService.dfy`, `MysqlService.dfy`, `WorkerRefinement.dfy`, `WorkerProgress.dfy`, `WorkerCompletions.dfy` | the worker-thread service as a transition system and as an object, its refinement to sequential calls, its progress, and what its completions carry |
| `ResultCursor.dfy`, `BlockingAnswers.dfy`, `ResultsIterator.dfy` | the cursor over the results of a query, what every operation answers told from the server's replies, and the iterator class |
| `ValueCast.dfy` | conversion of column texts to integers |

The main theorems, in the order a reader may want them:

1. `ComposedOps.RefinesBlocking`: a composed operation, under every suspension
   schedule, completes with exactly the outcome of its blocking form after exactly
   one resumption per suspension, or meets a status no wait is registered for; the
   schedule alone decides which.
2. `ComposedHandlers.StoreResultHandler.Call` and its siblings: the call operators,
   with their fall-through cases, perform exactly one turn of that machine in at
   most two rounds of the loop, and keep failing sentinels in unfinished slots.
3. `LoopProgress.ExactlyOnce`: with a library that only ever waits for reads, writes
   and timeouts, once the loop is drained after any run every handler has run exactly
   once. `LoopSafety.EveryRunOk`, without that hypothesis, is the invariant behind it:
   in every state each operation is pending, invoked or lost exactly once, and
   `MariadbLoops.MariadbLoop` ties the runs to the handler objects: whatever is issued,
   fired, run, cancelled or closed is one step of the transition system.
4. `LoopIsolation.CancelledAborts` and `LoopDelivery.DrainDelivers`: cancellation is
   an epoch. What was issued before aborts untouched, what is issued later delivers
   the blocking outcome, with other connections doing anything.
5. `WorkerRefinement.ServiceRefinesSequential`, `WorkerRefinement.RefinesSequential`,
   `WorkerService.FifoSafety` and `WorkerProgress.ServedExactlyOnce`: the same for the
   worker thread.
6. `Ownership.NothingLost`, `Ownership.CloseFreesAll`, `ResultLife.LivesUntilFreed`
   and `ResultLife.ExpiredForGood`, with their worker counterparts: conservation of
   native results, and the life of the result sets that watch them.
7. `ResultCursor.IterationVisitsAll` with `ResultsIterators.Iterate`: iterating a
   connector visits exactly the results before the first that fails, in order.
   `ResultCursor.SuccessiveCalls` says for every number of calls of `store_result`
   what that call returns, at the failing statement and past the end.
8. `BlockingAnswers.ConnectAnswers`, `BlockingAnswers.QueryAnswers` and
   `BlockingAnswers.QueryResultAnswers` tie the answers to the server's replies;
   `LoopIsolation.FailedWaitReports` and the lemmas of `LoopCompletions` say what a
   handler is told when its wait fails, is replaced, or the operation is refused.
9. `ValueCasts.ExactIffInRange`, `ValueCasts.RoundTrip` and `ValueCasts.LongDigits`.

## What is assumed of the library

The client library is a record of total functions indexed by the number of the
call (`MysqlLibrary.Server`), so a theorem over all servers is a theorem over all
answers and over all finite suspension schedules. Beyond that:

- a suspended call does not write its result slot and leaves errno 0; a finished
  call has the effect of the blocking one; starting a call abandons one that was
  suspended; continuing a call that is not suspended, or one of another kind,
  reports "commands out of sync" (2014);
- `mysql_more_results` is true exactly if a further reply is known; a failed
  statement ends the query; a new query replaces results that were not read;
- storing when no table is announced does no I/O, returns null and leaves the errno
  of the handle as it is: 0 after a successful statement, that of a failed one
  otherwise;
- a failing option leaves its errno in the handle;
- the event value passed to a `_cont` call is ignored, since the code passes on
  whichever single event it waited for.

A cancellation token is a generation number: a weak copy has expired exactly if the
number has moved on. The turn of a handler is one atomic step. Every lemma is proved
without automatic induction.

## Where the code is narrower than its intent

These are kept as the code has them, each with its exact condition:

- `store_result` reads the caller's error code before clearing it when the first
  result is stored. `ResultCursor.StaleErrorCode`: calling it with a code that is
  already set is the same as with a clear one if and only if the first result was
  stored before or the code is no error.
- `async_wait_mysql` registers nothing for a status with the `except` bit alone: the
  operation is destroyed without running its handler. `ComposedOps.RefinesBlocking`
  gives the condition for one operation, `LoopProgress.ExactlyOnce` holds for
  libraries that never ask for that, `LoopProgress.LostForExcept` shows the loss.
- `status | wait_type::except` is always true. The proofs show why no healthy
  operation is reported as `unknown`: the slot of a suspended call holds a failing
  value, so the errno, 0, replaces that code (`Connector.Connection.MysqlStart`).
- On a multi-result connection `has_more_results` is true before any query.
  `ResultCursor.BeforeAnyQuery`: iterating right after connecting visits nothing if
  and only if the connection takes single results or stored a first result before;
  otherwise it visits one empty set that no statement produced. The other claims
  about iteration start from a query.
- Blocking `store_result` does not check that the connection is open.
  `ResultCursor.ClosedStore`: on a closed one it calls the library if and only if no
  first result was stored and the caller's code is clear. Runs of the event loop only
  make the call on an open connection.

## Model

| member | source | states |
|---|---|---|
| `Connector.Connection.constructor` | include/amy/impl/mariadb_service.ipp:270-274 | a new connection is closed, owns nothing, and satisfies the ownership invariant |
| `Connector.Connection.FreeResult` | include/amy/impl/mariadb_service.ipp:310-312 | the owned native result is freed exactly once and no longer owned; without one nothing happens |
| `Connector.Connection.ResetLastResult` | include/amy/impl/mariadb_service.ipp:192-193 | the previous result is freed before the new one is owned |
| `Connector.Connection.Cancel` | include/amy/impl/mariadb_service.ipp:314-316 | only the token changes, so every copy taken before has expired |
| `Connector.Connection.Close` | include/amy/impl/mariadb_service.ipp:278-290 | the handle, the cursor, the owned result and the token are given up, and every registered wait is handed back as aborted |
| `Connector.Connection.Open` | include/amy/impl/mariadb_service.ipp:48-59 | an open handle stays as it is; a closed one is initialised, or an initialization error is reported |
| `Connector.Connection.SetOption` | include/amy/impl/mariadb_service.ipp:292-304 | a closed connection is refused untouched, otherwise the errno is reported and left in the handle exactly if the option fails |
| `Connector.Connection.Call` | include/amy/detail/mysql_ops.hpp:84-129 | a blocking call reports the errno exactly if it returns a failing value, and success otherwise |
| `Connector.Connection.MysqlStart` | include/amy/detail/mariadb_ops.hpp:87-98 | a suspended call leaves the slot alone and reports the clear errno if the slot holds a failing value, `unknown` if it does not; a finished one reports like the blocking call |
| `Connector.Connection.MysqlContinue` | include/amy/detail/mariadb_ops.hpp:100-111 | the same for continuing a call, including one that is not in flight |
| `Connector.Connection.AsyncWaitMysql` | include/amy/impl/mariadb_service.ipp:318-360 | the descriptor waits for readability, else for writability, of the handle's socket, else the timer for the timeout; every earlier wait is aborted, and nothing is registered exactly if none of the three is asked for |
| `Connector.Connection.Connect` | include/amy/impl/mariadb_service.ipp:72-93 | opens if needed, attempts the connection, and records the flags even when the attempt fails; what that answers is ConnectAnswers |
| `Connector.Connection.Query` | include/amy/impl/mariadb_service.ipp:121-136 | the owned result and the cursor are reset before the query is sent; a closed connection is refused untouched |
| `Connector.Connection.HasMoreResults` | include/amy/impl/mariadb_service.ipp:152-167 | answers for a closed, a single-result and a multi-result connection |
| `Connector.Connection.StoreResult` | include/amy/impl/mariadb_service.ipp:169-199 | moves to the next result unless the first is still to be stored, reading the caller's code before clearing it |
| `Connector.Connection.StoreCurrent` | include/amy/impl/mariadb_service.ipp:191-198 | the announced table becomes the result owned and the result set handed out |
| `Connector.Connection.QueryResult` | include/amy/basic_connector.hpp:126-133 | the query, followed by storing its result only if it succeeded; what that answers is QueryResultAnswers |
| `Connector.BuildFields` | include/amy/row.hpp:81-88 | one field per column, in order: its text or NULL, and its length, 0 for NULL |
| `ConnectionState.MirrorsUnique` | include/amy/result_set.hpp:113-116 | showing the server's rows cell by cell determines the rows handed out |
| `Connector.ResultSet.Assign` | include/amy/result_set.hpp:82-128 | the server's rows are appended one for one in order, cell by cell, with columns; nothing is read for an empty result, and everything is given up if fetching failed |
| `Connector.ResultSet.Copy` | include/amy/result_set.hpp:52-57 | a copy watches the same native result and shows the same rows |
| `Connector.ResultSet.Expired` | include/amy/result_set.hpp:188-190 | expired exactly if the connection no longer owns the result watched |
| `Connector.ResultSet.Size` | include/amy/result_set.hpp:155-158 | the number of rows of the native result while it is owned, and 0 afterwards |
| `Connector.ResultSet.Empty` | include/amy/result_set.hpp:150-153 | empty exactly if the size is 0, an expired set being empty |
| `ComposedHandlers.ConnectHandler.Call` | include/amy/impl/mariadb_service.ipp:461-516 | one turn of the phase machine: the handler runs with its outcome, or exactly one wait replaces the others with the slot still failing; after a failed wait or a cancel the handler gets that error and nothing is called or changed |
| `ComposedHandlers.ConnectHandler.Switch` | include/amy/impl/mariadb_service.ipp:473-499 | the switch starts the connection attempt and records the flags on entry, and continues it later |
| `ComposedHandlers.QueryHandler.Call` | include/amy/impl/mariadb_service.ipp:566-601 | the same for a query; after a failed wait or a cancel the handler gets that error and nothing is called or changed |
| `ComposedHandlers.QueryHandler.Switch` | include/amy/impl/mariadb_service.ipp:574-597 | the switch resets result and cursor and starts the query on entry, and continues it later |
| `ComposedHandlers.StoreResultHandler.Call` | include/amy/impl/mariadb_service.ipp:650-751 | one turn of the phase machine in at most two rounds of the loop, and the sentinel invariant again between turns; after a failed wait or a cancel the handler gets that error and nothing is called or changed |
| `ComposedHandlers.StoreResultHandler.Switch` | include/amy/impl/mariadb_service.ipp:658-733 | the loop is continued at most once, and only to wait for the move or to store after it |
| `ComposedHandlers.StoreResultHandler.CaseEntry` | include/amy/impl/mariadb_service.ipp:670-694 | entry moves to the next result or marks the first as stored, falling through only when nothing is pending |
| `ComposedHandlers.StoreResultHandler.CaseStoreStart` | include/amy/impl/mariadb_service.ipp:695-702 | starts storing, leaving the switch on an error or when nothing blocks |
| `ComposedHandlers.StoreResultHandler.CaseCont` | include/amy/impl/mariadb_service.ipp:703-730 | continues the call in flight unless it was only just started; the asserted final step always holds |
| `ComposedHandlers.QueryResultHandler.Call` | include/amy/impl/mariadb_service.ipp:802-890 | one turn of the fused query-and-store operation, with the same bounds and invariant; after a failed wait or a cancel the handler gets that error and nothing is called or changed |
| `ComposedHandlers.QueryResultHandler.Switch` | include/amy/impl/mariadb_service.ipp:810-872 | the loop is continued at most once, to wait for the query or to store its result |
| `ComposedHandlers.QueryResultHandler.CaseEntry` | include/amy/impl/mariadb_service.ipp:821-833 | entry resets result and cursor and starts the query |
| `ComposedHandlers.QueryResultHandler.CaseStoreStart` | include/amy/impl/mariadb_service.ipp:834-841 | the first result counts as stored when storing it starts |
| `ComposedHandlers.QueryResultHandler.CaseCont` | include/amy/impl/mariadb_service.ipp:842-869 | continues the call in flight; the asserted final step always holds |
| `ComposedHandlers.HandOutResult` | include/amy/impl/mariadb_service.ipp:735-749 | without an error the stored result becomes the one owned and is handed out, otherwise an empty set is |
| `MariadbServices.AsyncConnect` | include/amy/impl/mariadb_service.ipp:97-119 | opens the handle, posts a failure, or constructs the operation and runs its first turn |
| `MariadbServices.AsyncQuery` | include/amy/impl/mariadb_service.ipp:140-150 | refuses a closed connection, otherwise runs the first turn inside the call |
| `MariadbServices.AsyncStoreResult` | include/amy/impl/mariadb_service.ipp:204-215 | the same for storing a result |
| `MariadbServices.AsyncQueryResult` | include/amy/impl/mariadb_service.ipp:220-231 | the same for the fused operation |
| `MariadbServices.IssueStep` | include/amy/impl/mariadb_service.ipp:97-231 | the issuing step of the event loop adds exactly one posted error, one invocation, or one suspended operation with the waits it aborted |
| `MariadbLoops.ResumeOperation` | include/amy/impl/mariadb_service.ipp:461-890 | calling a stored handler object again performs the next turn of its operation, and leaves it suspended exactly where that turn says |
| `MariadbLoops.MariadbLoop.constructor` | include/amy/impl/mariadb_service.ipp:17-18 | a loop over fresh connections satisfies the invariant of every run |
| `MariadbLoops.MariadbLoop.Issue` | include/amy/impl/mariadb_service.ipp:97-231 | issuing any operation on any connection is the issuing step, and every pending operation still has a handler object of its own |
| `MariadbLoops.MariadbLoop.WaitOver` | include/amy/impl/mariadb_service.ipp:337-358 | the end of a wait is the firing step |
| `MariadbLoops.MariadbLoop.RunReady` | include/amy/impl/mariadb_service.ipp:461-890 | running a completion is the dispatching step: the right object is called, no other is touched, and the invariant holds again |
| `MariadbLoops.MariadbLoop.CancelAll` | include/amy/impl/mariadb_service.ipp:306-316 | cancelling is the cancelling step |
| `MariadbLoops.MariadbLoop.Close` | include/amy/impl/mariadb_service.ipp:65-69 | closing is the closing step, and nothing on a closed connection |
| `MariadbLoops.MariadbLoop.Block` | include/amy/impl/mariadb_service.ipp:72-199 | a blocking call between turns is the step of that name and returns what the blocking operation does |
| `MariadbLoops.OnlyOne` | include/amy/impl/mariadb_service.ipp:728-729 | while a completion is about to run, nothing else is pending under its operation |
| `MariadbLoops.DispatchPends` | include/amy/impl/mariadb_service.ipp:728-749 | after a turn the operation is pending exactly if the turn suspended it, and no other operation was added |
| `Reactors.RegisterReplaces` | include/amy/impl/mariadb_service.ipp:320-360 | a registration keeps at most one wait per connection, aborts all earlier ones, and loses the operation exactly if the status asks for neither read, write nor timeout |
| `Reactors.RegisterTakes` | include/amy/impl/mariadb_service.ipp:323-359 | readability before writability of the socket the handle has now, and only if neither is asked for the timer with the descriptor as it was; otherwise nothing |
| `ComposedOps.FailedTurn` | include/amy/impl/mariadb_service.ipp:658-669 | a turn after a cancel or a failed wait invokes the handler with that error and calls and changes nothing |
| `ComposedOps.DriveFlight` | include/amy/detail/mariadb_ops.hpp:100-111 | a suspended call runs to its blocking effect with one resumption per suspension |
| `ComposedOps.DriveBegin` | include/amy/impl/mariadb_service.ipp:473-499 | starting and continuing a call until it finishes leads where the blocking call leads |
| `ComposedOps.DriveBeginStore` | include/amy/impl/mariadb_service.ipp:695-730 | storing under any schedule ends as the blocking store does |
| `ComposedOps.DriveThenStore` | include/amy/impl/mariadb_service.ipp:802-890 | a query or move under any schedule is followed by storing exactly if it succeeded |
| `ComposedOps.RefinesBlocking` | include/amy/impl/mariadb_service.ipp:461-890 | on an open connection each operation completes with the code, rows, cursor and owned result of its blocking form after one resumption per suspension, or is lost exactly if its schedule contains a status no wait is registered for |
| `BlockingAnswers.OpenAnswers` | include/amy/impl/mariadb_service.ipp:48-59 | opening reports an initialization error exactly if the library cannot initialise, and nothing of an earlier query can be read |
| `BlockingAnswers.SetOptionAnswers` | include/amy/impl/mariadb_service.ipp:292-304 | a failing option is reported with its errno, a closed connection with not_initialized |
| `BlockingAnswers.ConnectAnswers` | include/amy/impl/mariadb_service.ipp:82-92 | on an open connection the attempt reports success or the library's errno, and the flags are recorded in both cases |
| `BlockingAnswers.ConnectOpensFirst` | include/amy/impl/mariadb_service.ipp:76-80 | a closed connection is opened first, and if that fails keeps its flags, stays closed and attempts nothing |
| `BlockingAnswers.QueryAnswers` | include/amy/impl/mariadb_service.ipp:121-136 | a query frees what was held, rewinds the cursor, and then stands at the first reply to the statement or reports its error; a closed connection is refused untouched |
| `BlockingAnswers.FirstStoreAnswers` | include/amy/impl/mariadb_service.ipp:182-198 | the first store after a query shows the first reply or reports its error, on any connection |
| `BlockingAnswers.QueryResultAnswers` | include/amy/basic_connector.hpp:126-133 | query_result shows the first reply to the statement, or reports its error with an empty set; a closed connection is refused untouched |
| `BlockingAnswers.CloseForgets` | include/amy/impl/mariadb_service.ipp:278-290 | close leaves the connection closed, before a first result, owning nothing, with a new token and nothing to read |
| `BlockingAnswers.FirstSuspension` | include/amy/impl/mariadb_service.ipp:475-484 | an operation suspended in its first turn has already recorded its flags, or freed what was held and set the cursor |
| `Ownership.NothingLost` | include/amy/impl/mariadb_service.ipp:893-899 | every native result ever allocated was freed or is the one held, never both |
| `Ownership.StoreKeepsBalance` | include/amy/impl/mariadb_service.ipp:192-193 | a fresh result becomes the one held, the previous one being freed, whatever the server answers |
| `Ownership.BlockingSound` | include/amy/impl/mariadb_service.ipp:72-199 | every blocking operation keeps the account of results and owns nothing before the first is stored |
| `Ownership.EnterSound` | include/amy/impl/mariadb_service.ipp:670-702 | the first turn of every composed operation keeps the account, at suspension points too |
| `Ownership.ResumeSound` | include/amy/impl/mariadb_service.ipp:703-749 | so does every later turn, of an operation of any age, whatever happened to the connection in between |
| `Ownership.CloseFreesAll` | include/amy/impl/mariadb_service.ipp:278-290 | after close every result ever allocated has been freed |
| `EventLoop.PlaceOnce` | include/amy/impl/mariadb_service.ipp:728-749 | a turn leaves its operation in exactly one place: waiting, invoked or lost |
| `EventLoop.FireSum` | include/amy/impl/mariadb_service.ipp:337-358 | a wait that fires becomes one ready completion, nothing else changing place |
| `EventLoop.CloseSum` | include/amy/impl/mariadb_service.ipp:284-285 | closing turns every registered wait into a ready completion |
| `EventLoop.StepOnce` | include/amy/impl/mariadb_service.ipp:97-231 | no step, on any connection, loses an operation or makes its handler run again |
| `LoopSafety.StepShape` | include/amy/impl/mariadb_service.ipp:278-360 | every step keeps each connection's account and at most one wait per connection |
| `LoopSafety.EveryRunOk` | include/amy/impl/mariadb_service.ipp:461-890 | in every state of every run, each operation issued is pending, invoked or lost exactly once, with at most one wait and a balanced account per connection |
| `LoopSafety.InitialOk` | include/amy/impl/mariadb_service.ipp:270-274 | the runs start in such a state |
| `LoopProgress.ResumeProgress` | include/amy/impl/mariadb_service.ipp:703-730 | an operation suspended again has used up a suspension of its call or moved on to its last call |
| `LoopProgress.StepCloser` | include/amy/impl/mariadb_service.ipp:657-750 | firing a wait or running a completion always decreases the measure of calls, suspensions and waits left |
| `LoopProgress.Drain` | include/amy/impl/mariadb_service.ipp:657-750 | with any scheduler and any results of waits the loop reaches a state with nothing pending |
| `LoopProgress.DrainedOnce` | include/amy/impl/mariadb_service.ipp:742-749 | there, each operation was invoked once or lost once |
| `LoopProgress.RunServing` | include/amy/impl/mariadb_service.ipp:337-359 | with a library that only waits for reads, writes and timeouts no operation is ever lost |
| `LoopProgress.ExactlyOnce` | include/amy/impl/mariadb_service.ipp:461-890 | then, after any run with failing waits, cancellation and closing, every handler has run exactly once |
| `LoopProgress.LostForExcept` | include/amy/impl/mariadb_service.ipp:337-359 | a status with the except bit alone loses the operation: nothing pending, handler never run |
| `LoopIsolation.StaleAborts` | include/amy/impl/mariadb_service.ipp:657-669 | an expired operation, or one whose wait was aborted, completes with operation_aborted and changes no connection and no wait |
| `LoopIsolation.FailedWaitReports` | include/amy/impl/mariadb_service.ipp:473-498 | an operation whose wait failed makes no library call, waits for nothing, and its handler gets the error of the wait |
| `LoopIsolation.CancelledAborts` | include/amy/impl/mariadb_service.ipp:278-316 | after a cancel or close, whenever an operation issued before is resumed, in any later state of any run, it aborts so |
| `LoopDelivery.EntryHeads` | include/amy/impl/mariadb_service.ipp:97-119 | the first turn, after opening the handle, is headed for the blocking outcome |
| `LoopDelivery.DeliversBlockingOutcome` | include/amy/impl/mariadb_service.ipp:650-751 | an operation issued when only cancelled ones are around delivers the code, rows and connection state of the blocking call, as soon as nothing but cancelled operations is pending on its connection, whatever other connections and the cancelled ones do |
| `LoopDelivery.DrainDelivers` | include/amy/impl/mariadb_service.ipp:650-751 | draining the loop after any such run, with the connection's waits succeeding, does invoke its handler with the blocking outcome |
| `LoopDelivery.CancelVacates` | include/amy/impl/mariadb_service.ipp:278-316 | cancelling or closing a connection brings about that situation |
| `LoopCompletions.RefusalPosts` | include/amy/impl/mariadb_service.ipp:97-119 | a refused operation posts exactly its error: not_initialized, the initialization error, or that of the option, told from the library |
| `LoopCompletions.RefusedIff` | include/amy/impl/mariadb_service.ipp:97-231 | an operation enters exactly if nothing refuses it |
| `LoopCompletions.PostedReports` | include/amy/impl/mariadb_service.ipp:142-145 | a posted error reaches its handler with an empty set and does nothing else |
| `LoopCompletions.FireReports` | include/amy/impl/mariadb_service.ipp:337-358 | a wait that fires carries its own result and changes nothing else |
| `LoopCompletions.ReplacedAborts` | include/amy/impl/mariadb_service.ipp:332-333 | a wait that is replaced is over as aborted |
| `LoopCompletions.ClosedAborts` | include/amy/impl/mariadb_service.ipp:284-285 | so is one on a connection that is closed, and none is left there |
| `LoopCompletions.SupersededAborts` | include/amy/impl/mariadb_service.ipp:332-333 | an operation whose wait is taken by a later one gets operation_aborted without a library call |
| `LoopCompletions.CancelOnlyExpires` | include/amy/impl/mariadb_service.ipp:306-316 | cancelling changes the token and nothing else, not even the waits; closing a closed connection changes nothing |
| `LoopCompletions.AbandonedReports` | include/amy/detail/mariadb_ops.hpp:100-111 | an operation whose call was abandoned for another one is told that commands are out of sync |
| `LoopSockets.RegisteredPlaced` | include/amy/impl/mariadb_service.ipp:323-330 | a new descriptor wait is on the socket the handle has at that moment |
| `LoopSockets.StepPlaced` | include/amy/impl/mariadb_service.ipp:320-360 | every step keeps descriptor waits on sockets of their own handle and timeouts on the timer |
| `LoopSockets.EveryRunPlaced` | include/amy/impl/mariadb_service.ipp:320-360 | so does every run |
| `LoopSockets.InitialPlaced` | include/amy/impl/mariadb_service.ipp:24-28 | the runs start in such a state |
| `MysqlServices.ConnectJob` | include/amy/impl/mysql_service.ipp:387-413 | aborts if cancelled, otherwise connects and records the flags |
| `MysqlServices.QueryJob` | include/amy/impl/mysql_service.ipp:426-447 | aborts if cancelled, otherwise resets result and cursor and queries |
| `MysqlServices.StoreResultJob` | include/amy/impl/mysql_service.ipp:458-506 | aborts if cancelled, otherwise does what store_result does with a clear code |
| `MysqlServices.MysqlService.constructor` | include/amy/impl/mysql_service.ipp:14-20 | a new service has an empty queue, no thread and no outstanding work |
| `MysqlServices.MysqlService.StartWorkThread` | include/amy/impl/mysql_service.ipp:89-101 | a thread is started exactly if there is none |
| `MysqlServices.MysqlService.ShutdownService` | include/amy/impl/mysql_service.ipp:26-39 | a job in progress is finished, the thread is joined and what is queued is destroyed, once |
| `MysqlServices.MysqlService.Cancel` | include/amy/impl/mysql_service.ipp:346-356 | cancelling is the cancelling step and keeps the service's invariant |
| `MysqlServices.MysqlService.Close` | include/amy/impl/mysql_service.ipp:83-87 | closing is the closing step, and nothing on a closed connection |
| `MysqlServices.MysqlService.AsyncConnect` | include/amy/impl/mysql_service.ipp:132-154 | opens the handle, and refuses, queues or ignores the operation |
| `MysqlServices.MysqlService.AsyncQuery` | include/amy/impl/mysql_service.ipp:176-190 | refuses on a closed connection, otherwise queues with the current token |
| `MysqlServices.MysqlService.AsyncStoreResult` | include/amy/impl/mysql_service.ipp:244-260 | the same for storing a result |
| `MysqlServices.MysqlService.RunOne` | include/amy/impl/mysql_service.ipp:387-506 | the first queued operation runs and its completion is posted |
| `MysqlServices.MysqlService.DeliverOne` | include/amy/impl/mysql_service.ipp:412-446 | the oldest completion is delivered and its work released |
| `WorkerService.RunJobSound` | include/amy/impl/mysql_service.ipp:387-506 | a queued operation keeps the account of results, and if not cancelled is the blocking operation |
| `WorkerService.StepOk` | include/amy/impl/mysql_service.ipp:26-154 | every step keeps the ledger of threads, queue, completions and outstanding work, and every connection's account |
| `WorkerService.EveryRunOk` | include/amy/impl/mysql_service.ipp:26-506 | so does every run |
| `WorkerService.FatedIncreases` | include/amy/impl/mysql_service.ipp:147-153 | the operations queued, in log order, have increasing numbers, so none occurs twice |
| `WorkerService.FifoSafety` | include/amy/impl/mysql_service.ipp:26-506 | at most one thread; completions posted in issue order and at most once each; nothing dropped before shutdown; undelivered operations keep the main loop busy |
| `WorkerCompletions.RefusalPosts` | include/amy/impl/mysql_service.ipp:139-145 | a refused operation posts not_initialized or the initialization error with an empty set, and holds work until that is delivered |
| `WorkerCompletions.AcceptanceQueues` | include/amy/impl/mysql_service.ipp:147-153 | any other goes to the end of the queue with the token of that moment, or is forgotten after a shutdown |
| `WorkerCompletions.ShutdownDrops` | include/amy/impl/mysql_service.ipp:26-39 | shutdown completes nothing: what is queued is dropped, what is posted stays to be delivered, and a second one changes nothing |
| `WorkerCompletions.CancelOnlyExpires` | include/amy/impl/mysql_service.ipp:346-356 | cancelling changes the token and nothing else; closing a closed connection changes nothing |
| `WorkerCompletions.DeliveredInOrder` | include/amy/impl/mysql_service.ipp:412-446 | handlers run in the order in which their completions were posted |
| `WorkerProgress.StepCloser` | include/amy/impl/mysql_service.ipp:387-506 | whatever is queued can be run and whatever is posted delivered, and each such step decreases what is left |
| `WorkerProgress.Drain` | include/amy/impl/mysql_service.ipp:387-506 | with any order of working and delivering the service gets to where nothing is queued or posted |
| `WorkerProgress.ServedExactlyOnce` | include/amy/impl/mysql_service.ipp:26-506 | there, every operation queued or refused was delivered exactly once or dropped by shutdown, all of them without a shutdown, and no work is outstanding |
| `WorkerRefinement.OpenedJob` | include/amy/impl/mysql_service.ipp:139-153 | opening the handle when the operation is issued amounts to opening it at its turn |
| `WorkerRefinement.DrainedFirst` | include/amy/impl/mysql_service.ipp:147-153 | the first queued operation may run now or later without a difference to what follows |
| `WorkerRefinement.RefinesSequential` | include/amy/impl/mysql_service.ipp:387-506 | from any state where a connection's queued operations are cancelled, later ones deliver the results of sequential blocking calls and leave that connection as those do, whatever happens on others |
| `WorkerRefinement.ServiceRefinesSequential` | include/amy/impl/mysql_service.ipp:387-506 | from an unused service, without cancellation or shutdown, all operations on all connections deliver the results of blocking calls in issue order |
| `WorkerRefinement.Reachable` | include/amy/impl/mysql_service.ipp:14-20 | every state a service can reach satisfies what these theorems require of it |
| `WorkerRefinement.CancelExpires` | include/amy/impl/mysql_service.ipp:319-356 | a cancel or close expires everything queued on its connection |
| `WorkerRefinement.CancelledJobsAbort` | include/amy/impl/mysql_service.ipp:391-396 | however much later it is run, a job queued before a cancel or close changes no connection and completes with operation_aborted |
| `ResultCursor.IterationVisitsAll` | include/amy/impl/mysql_service.ipp:193-241 | after a successful query on a multi-result connection the visit yields exactly the results before the first that fails, in server order, then that error, and terminates |
| `ResultCursor.SingleVisitsOne` | include/amy/impl/mysql_service.ipp:205-207 | on a single-statement connection one result is visited exactly if the statement has columns |
| `ResultCursor.StoreShows` | include/amy/impl/mysql_service.ipp:233-240 | storing shows the rows, columns and NULLs of the reply the cursor stands at, or reports its error with an empty set |
| `ResultCursor.CallsMove` | include/amy/detail/mysql_ops.hpp:100-129 | a finished query or move leaves the cursor at the first of the replies, or reports the failed statement's errno with nothing of the query left |
| `ResultCursor.IterationUsesUp` | include/amy/impl/mysql_service.ipp:193-231 | after any iteration, ended by the last result or by an error, there are no more results and a further call reports so |
| `ResultCursor.SuccessiveCalls` | include/amy/impl/mysql_service.ipp:210-241 | for every i, call i of store_result shows reply i while all before can be read, reports the first error with an empty set, and from then on reports no_more_results and only frees what was held |
| `ResultCursor.PastTheEnd` | include/amy/impl/mysql_service.ipp:215-231 | a call reports no_more_results, only freeing what was held, exactly when there are none, and so does the next |
| `ResultCursor.BeforeAnyQuery` | include/amy/impl/mysql_service.ipp:202-207 | iterating right after connecting visits nothing if and only if the connection takes single results or stored a first result before, and one empty set otherwise |
| `ResultCursor.ClosedStore` | include/amy/impl/mariadb_service.ipp:169-199 | on a closed connection store_result calls the library if and only if no first result was stored and the caller's code is clear |
| `ResultCursor.StaleErrorCode` | include/amy/impl/mysql_service.ipp:224-231 | a code set on entry makes no difference if and only if the first result was stored before or the code is no error |
| `ResultsIterators.ResultsIterator.End` | include/amy/basic_results_iterator.hpp:31-34 | an iterator without a connector, at the end |
| `ResultsIterators.ResultsIterator.Begin` | include/amy/basic_results_iterator.hpp:36-46 | throws not_initialized on a closed connector, otherwise advances to the first result or the end |
| `ResultsIterators.ResultsIterator.Increment` | include/amy/basic_results_iterator.hpp:76-82 | moves to the next result set if there is one, else to the end |
| `ResultsIterators.ResultsIterator.StoreResult` | include/amy/basic_results_iterator.hpp:93-96 | assigns the stored set, or throws and keeps the old one |
| `ResultsIterators.ResultsIterator.Equal` | include/amy/basic_results_iterator.hpp:84-86 | two iterators are equal at the end, or on the same connector before it |
| `ResultsIterators.VisitingNext` | include/amy/basic_results_iterator.hpp:76-96 | one increment takes the next set from those still to be visited |
| `ResultsIterators.StoreMoves` | include/amy/impl/mysql_service.ipp:215-226 | storing a result brings the cursor closer to the end |
| `ResultsIterators.IterateFrom` | include/amy/basic_results_iterator.hpp:48-86 | the loop to the end iterator terminates having visited exactly the rest |
| `ResultsIterators.Iterate` | include/amy/basic_results_iterator.hpp:36-96 | iterating over a connector is the visit the cursor theorems are about |
| `ResultLife.DeliveredGenuine` | include/amy/impl/mariadb_service.ipp:738-748 | what a composed operation hands out has the rows and columns of the native result it watches, and their number as size |
| `ResultLife.StoredGenuine` | include/amy/impl/mariadb_service.ipp:191-198 | the same for the blocking store |
| `ResultLife.StepGrows` | include/amy/impl/mariadb_service.ipp:97-360 | no step forgets that a result was allocated or freed |
| `ResultLife.LivesUntilFreed` | include/amy/result_set.hpp:150-190 | in every later state of every run the size of a result set is the number of its rows until its native result is freed, and 0 from then on |
| `ResultLife.ExpiredForGood` | include/amy/impl/mariadb_service.ipp:672-701 | once a query, a store or a close follows, all copies are expired with size 0 for good |
| `ResultLife.WorkerLivesUntilFreed` | include/amy/impl/mysql_service.ipp:319-328 | the same life under the worker-thread service, rows included |
| `ResultLife.WorkerExpiredForGood` | include/amy/impl/mysql_service.ipp:426-506 | once a query or store job that was not cancelled runs, or an open connection is closed, all copies are expired with size 0 for good |
| `ValueCasts.StrtolNearest` | include/amy/detail/value_cast.hpp:33-35 | the signed conversion returns the one 64-bit long nearest to the number the text denotes |
| `ValueCasts.StrtoulResidue` | include/amy/detail/value_cast.hpp:63-65 | the unsigned conversion returns the one unsigned long congruent to the number if its digits fit, and the largest otherwise |
| `ValueCasts.ReadsNumber` | include/amy/detail/value_cast.hpp:28-80 | white space, an optional sign and digits are read as the number the digits denote by their places, whatever follows |
| `ValueCasts.ReadsNothing` | include/amy/detail/value_cast.hpp:28-80 | without a digit there the text is read as zero |
| `ValueCasts.DigitsMagnitude` | include/amy/detail/value_cast.hpp:28-35 | reading the printed digits of a number gives the number, whatever follows |
| `ValueCasts.CastIsWrap` | include/amy/detail/value_cast.hpp:73-75 | the detour of the unsigned 16-bit cast through a signed type changes nothing |
| `ValueCasts.CastIsCongruent` | include/amy/detail/value_cast.hpp:38-80 | every cast of every text is the value of its type congruent to the saturated library value |
| `ValueCasts.ExactIffInRange` | include/amy/detail/value_cast.hpp:28-80 | a cast returns the number a text denotes if and only if the type has it |
| `ValueCasts.RoundTrip` | include/amy/detail/value_cast.hpp:28-80 | every value of every 8, 16, 32 and 64-bit type survives being printed and cast, after white space, with a plus sign, and whatever follows |
| `ValueCasts.LongDigits` | include/amy/detail/value_cast.hpp:38-80 | a number of any length is cast to the saturated 64-bit value modulo the width |
| `ValueCasts.BoolIsNonZero` | include/amy/detail/value_cast.hpp:53-55 | a text is true if and only if it denotes a number other than zero |

## Left out

- The wire protocol, SQL and the insides of the client library: only the handle contract above.
- Sockets, clocks, executors, allocators and handler storage: what remains is registering and aborting waits, resuming, invoking and counting outstanding work.
- Data races inside a handler: each turn, and each job of the worker, is one atomic step. Blocking calls made on the main thread while the worker uses the same connection are not part of the runs of the worker-thread service.
- A set of connections that changes during a run, and destroying a connection with operations pending: the transition systems have a fixed list of connections.
- The storage of suspended handlers: they are moved into the wait that resumes them; here they stay in a map by operation number, and are not removed when they complete.
- What it means for the server that a status asking for several events is answered by one of them: the code waits for one, and so does the model.
- `autocommit`, `commit`, `rollback`, `affected_rows`, scoped transactions and `execute`: one library call each.
- Error texts, authentication, endpoint traits, option wrappers and the values of the client flags other than the two that decide about multiple results.
- The throwing forms of `connect`, `query` and `store_result`, except where the iterator uses one; an exception is a returned error here.
- Conversions to floating point, dates, times and through streams.
