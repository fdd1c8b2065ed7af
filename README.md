# T2-lib request broker, client and server: a Dafny model

T2-lib wraps Boost.Asio in a small TCP `client` and `server`. Its core is a
shared request broker. A client that connects or receives pushes a request
record onto a process-wide queue and then polls the record's `work_finished`
flag with `blocking_timer` until a deadline. A single dispatcher thread
(`asio_loop`) sweeps the queue. The sweep erases records their submitter has
marked with `disposal_flag`, skips finished ones, and hands `unprocessed` ones
to the reactor as `processing`. The reactor's completion handlers then write
the record's status and, last, `work_finished`. A live-instance counter starts
the dispatcher on its 0 → 1 transition. The retire flag stops it when the
count returns to 0. The server has an `actively_listening` flag, an accept
loop that raises `cleaned_up` when it exits, and `call_handlers`, which runs
the user's connection handlers on each accepted client.

The model replaces threads and sockets by explicit events:

- `Requests` (file `requests.dfy`) is the request record. It is a datatype
  whose tagged payload replaces the C++ tag and union. It also holds what the
  sweep and the two completion handlers do to one record.
- `Broker` (file `broker.dfy`) holds the process-wide state as a
  `RequestBroker` object. Its fields are the queue (a `seq` of records that
  the methods reassign), the counter and the retire flag. `Sweep` is the
  in-place erase loop with the source's step-back index adjustment. It is
  proved against the specification function `Swept`, and the lemmas about
  `Swept` state what one sweep does. The counter and the retire flag are also
  given as pure transition functions and an event trace (`Run`) for lemmas
  across many calls.
- `Clients` (file `clients.dfy`) is the connection object and the static
  `send_data_base` and `receive_data_base`. `connect` and `receive_data_base`
  are split at their `blocking_timer` wait. `Begin…` runs up to the push, and
  `Finish…` runs from the end of the wait. The waits are where any sequence of
  `DispatcherIteration`, `CompleteConnect` and `CompleteReceive` calls happens.
  The result mappings are the pure functions `ConnectOutcome` and
  `ReceiveOutcome`.
- `Servers` (file `servers.dfy`) holds the listening flag, the accept loop's
  flag effects and `call_handlers`.
- `Utility` (file `utility.dfy`) holds `blocking_timer`, modelled against an
  abstract clock and flag readings supplied as inputs, and `exception_wrapper`.

Records are identified by id instead of by pointer. Both completion
handlers capture the loop-local pointer `iterative_request` by reference
(source/T2/net/client.cpp:253, 274, 303) and run only later, inside
`asio_context.run()` (source/T2/net/client.cpp:345), after that local is gone.
So every handler call in the C++ code writes through a dangling reference, not
only the calls for records already erased. In the model every handler finds
its record by id instead, and a handler for an erased record changes nothing.

In these places the code does something its comments, header or tests do not
suggest, and the model follows the code:

- `retired_flag` is never reset to `normal_operation`: `retire` writes
  `retire_signal` (source/T2/net/client.cpp:12) and the dispatcher writes
  `finished_retiring` (source/T2/net/client.cpp:348), and nothing else writes
  the flag. A dispatcher thread started by a later 0 → 1 transition therefore
  leaves its loop at its first test and never sweeps again
  (`Broker.NoSweepAfterRetirement`). A connect queued after that stays
  `unprocessed` and so reports a connection error, not a timeout.
- The same never-reset flag makes the second retirement hang. That thread has
  left its loop, so when the count next reaches 0 `retire` raises
  `retire_signal` and waits for `finished_retiring` with no thread left to
  write it. It waits while the destructor holds `count_lock`
  (source/T2/net/client.cpp:225-227), so that destructor never returns and
  every later `initialization` and destructor blocks as well
  (`Broker.SecondRetirementDeadlocks`, `Broker.RetireWithoutDispatcherDeadlocks`).
  This happens when the new thread has written `finished_retiring`
  (source/T2/net/client.cpp:348) before the last destructor's `retire` writes
  `retire_signal` (source/T2/net/client.cpp:12). Otherwise that write answers
  the retirement, and the hang moves to the next one.
- Only a `listen_loop` thread raises `cleaned_up` (source/T2/net/server.cpp:67),
  and only `start_listening` starts one (source/T2/net/server.cpp:88), while
  `~server` waits for `cleaned_up` (source/T2/net/server.cpp:103-105). A
  server destroyed without ever listening therefore waits for ever
  (`Servers.DestroyNeverListened`). Nothing lowers `cleaned_up` again, so after
  start, stop, the loop's exit and a second start, `~server` does not wait for
  the second loop, which goes on using the destroyed object
  (`Servers.RestartNotAwaited`).
- `send_data_base` and `receive_data_base` increment the counter
  (source/T2/net/client.cpp:123, 164) and nothing decrements it for them
  (`Broker.CounterBalance`). The count then does not return to 0 after a send
  or a receive.
- `call_handlers` catches only `runtime_error` (source/T2/net/server.cpp:18).
  Any other exception leaves the loop without deleting the client
  (`Servers.CallHandlers`).
- `connect()` is modelled as the `.cpp` file defines it, with a timeout
  parameter; the header declares it differently.
- `call_handlers(handlers, accepted_client)` (source/T2/net/server.cpp:12-13)
  iterates `connection_handlers` (source/T2/net/server.cpp:15) and reads
  `catch_listeners` (source/T2/net/server.cpp:24). Both are parameters of
  `listen_loop` (source/T2/net/server.cpp:36-37) and are not in scope in
  `call_handlers`, and the call at source/T2/net/server.cpp:65 passes no
  `catch_listeners`. The model repairs this: `Servers.CallHandlers` takes
  `listen_loop`'s handler list and flag as parameters.

## Model

| member | source | states |
|---|---|---|
| `Requests.Request.Kind` | source/T2/net/net.hpp:50-59 | a record is a connect request exactly when its payload is the connection details, and a receive request exactly when it is the receive details; there is no third kind |
| `Requests.NewConnectRequest` | source/T2/net/client.cpp:55-62 | a new connect record carries the destination endpoint, is `unprocessed`, and has both flags false |
| `Requests.NewReceiveRequest` | source/T2/net/client.cpp:169-177 | a new receive record carries the buffer, has 0 bytes received, is `unprocessed`, and has both flags false |
| `Requests.Advance` | source/T2/net/client.cpp:263-268 | a sweep visit turns `unprocessed` into `processing`, changes only the status, and leaves a record in any other status untouched, so the status only moves forward; it keeps coherence |
| `Requests.ConnectHandled` | source/T2/net/client.cpp:274-297 | the connect handler leaves `failed` on error and `success` otherwise, with `work_finished` set, so the record is coherent; on a `processing` record this moves the status forward; nothing else changes |
| `Requests.ReceiveHandled` | source/T2/net/client.cpp:303-328 | the receive handler leaves `failed` on error, or stores `bytes_transferred` and leaves `success`; `work_finished` is set and the record is coherent; on a `processing` record this moves the status forward |
| `Broker.Initialized` | source/T2/net/client.cpp:20-28 | the counter goes up by one, the retire flag is unchanged, and a dispatcher thread starts exactly when the count was 0; afterwards one is running exactly when one was running or one was started |
| `Broker.Released` | source/T2/net/client.cpp:225-228 | the counter goes down by one, and `retire` (the flag becomes `retire_signal`) happens exactly when the count reaches 0; the dispatcher is not touched |
| `Broker.Iterated` | source/T2/net/client.cpp:241-348 | a running dispatcher's loop goes on exactly while the flag is `normal_operation`; otherwise it answers `finished_retiring` and the thread ends |
| `Broker.CounterBalance` | source/T2/net/client.cpp:221-228 | over any event trace, the final count equals the start count plus constructions and send/receive calls, minus destructions |
| `Broker.RetireFlagNeverReset` | source/T2/net/net.hpp:63-67 | once the flag has left `normal_operation`, no sequence of events brings it back |
| `Broker.NoSweepAfterRetirement` | source/T2/net/client.cpp:11-28 | from the initial state, after a destructor has brought the count to 0, every later loop test of any running dispatcher leaves the loop |
| `Broker.RunKeepsLifecycleValid` | source/T2/net/client.cpp:20-28 | over any trace, while the flag is `normal_operation` and a user is live a dispatcher thread runs, and `retire_signal` is up only at count 0 |
| `Broker.RetireWithoutDispatcherDeadlocks` | source/T2/net/client.cpp:11-18 | a raised `retire_signal` with no running dispatcher lets no lifecycle event happen ever again |
| `Broker.SecondRetirementDeadlocks` | source/T2/net/client.cpp:221-232 | after a completed retirement with no user left, one client created, the new dispatcher's first test, and that client destroyed leave `retire_signal` up with no dispatcher: a deadlock |
| `Broker.SecondRetirementReachable` | source/T2/net/client.cpp:11-28 | a completed retirement with no user left is reached from the initial state by creating and destroying one client |
| `Broker.SurvivorsAreTheUndisposed` | source/T2/net/client.cpp:252-262 | the records a sweep keeps are exactly those not disposed, listed in increasing position; their number plus the erased number is the queue length |
| `Broker.SweptIsAdvancedSurvivors` | source/T2/net/client.cpp:252-268 | the swept queue is the kept records in their original relative order, each advanced |
| `Broker.SweptLength` | source/T2/net/client.cpp:243-259 | a sweep shrinks the queue by exactly the number of disposed records; an empty queue stays empty |
| `Broker.SweptLeavesNoDisposedOrUnprocessed` | source/T2/net/client.cpp:256-268 | after a sweep no record is disposed and none is `unprocessed` |
| `Broker.SweptSettled` | source/T2/net/client.cpp:263-267 | a sweep over a queue with nothing disposed and nothing unprocessed leaves it unchanged |
| `Broker.SweptIdempotent` | source/T2/net/client.cpp:252-268 | a second sweep straight after a first changes nothing |
| `Broker.SubmittedAreTheUnprocessed` | source/T2/net/client.cpp:267-301 | an id is handed to the reactor exactly when its record was queued, not disposed, and `unprocessed` |
| `Broker.SweptKeepsQueueValid` | source/T2/net/client.cpp:252-268 | a sweep keeps every record coherent and the ids distinct |
| `Broker.SweptKeepsUndisposed` | source/T2/net/client.cpp:256-262 | a queued record that is not disposed is still queued after a sweep, advanced: only disposed records are erased |
| `Broker.SweptProgresses` | source/T2/net/client.cpp:263-268 | a sweep moves no record's status back and changes no final status |
| `Requests.StatusFollowsIsOrder` | source/T2/net/net.hpp:30-37 | the status order is reflexive, transitive and antisymmetric, and `success` and `failed` are final |
| `Broker.RequestBroker.constructor` | source/T2/net/net.hpp:67-69 | the initial state is an empty queue, count 0, `normal_operation` and no dispatcher thread |
| `Broker.RequestBroker.Initialization` | source/T2/net/client.cpp:20-28 | follows `Initialized`: increments the counter and starts a dispatcher on 0 → 1; it cannot run while `retire_signal` is up, since the retiring destructor holds `count_lock` |
| `Broker.RequestBroker.Retire` | source/T2/net/client.cpp:11-18 | writes `retire_signal` |
| `Broker.RequestBroker.Release` | source/T2/net/client.cpp:225-228 | follows `Released`: decrements the counter and retires when it reaches 0; like `Initialization` it waits for `count_lock` |
| `Broker.RequestBroker.SubmitConnect` | source/T2/net/client.cpp:55-65 | appends one fresh connect record under a new id, keeps the queue invariant and moves no status |
| `Broker.RequestBroker.SubmitReceive` | source/T2/net/client.cpp:169-181 | appends one fresh receive record under a new id, keeps the queue invariant and moves no status |
| `Broker.RequestBroker.Dispose` | source/T2/net/client.cpp:74-76 | sets `disposal_flag` on exactly the record with that id and moves no status |
| `Broker.RequestBroker.CompleteConnect` | source/T2/net/client.cpp:267-297 | called only for a `processing` connect record, as the reactor does; applies the connect handler to exactly that record, if still queued, moves its status forward to a final one, and keeps the invariant that `work_finished` implies a processed status |
| `Broker.RequestBroker.CompleteReceive` | source/T2/net/client.cpp:300-328 | called only for a `processing` receive record; applies the receive handler to exactly that record, if still queued, moves its status forward to a final one, and keeps the invariant |
| `Broker.RequestBroker.Sweep` | source/T2/net/client.cpp:243-336 | the in-place erase loop with the step-back index leaves `Swept(old queue)`, hands `Submitted(old queue)` to the reactor, reads each record present at the start exactly once, in order, and moves statuses only forward |
| `Broker.RequestBroker.DispatcherIteration` | source/T2/net/client.cpp:241-348 | runs only on a live dispatcher thread; while `normal_operation`, sweeps (an empty queue is left as it is); otherwise writes `finished_retiring` and the thread ends |
| `Clients.ConnectOutcome` | source/T2/net/client.cpp:78-95 | `connect` succeeds exactly on `success`, reports a timeout exactly on `processing`, and reports a connection error exactly on `unprocessed` or `failed` |
| `Clients.ReceiveOutcome` | source/T2/net/client.cpp:194-218 | a timed-out receive returns 0 whatever the status; otherwise it succeeds exactly on `success` and then returns `bytes_received`; the only error is a receive error |
| `Clients.HandledConnectOutcome` | source/T2/net/client.cpp:276-295 | after the connect handler ran, `connect` reports success, or a connection error on a handler error; it never reports a timeout |
| `Clients.HandledReceiveReturnsTransferred` | source/T2/net/client.cpp:324-327 | a receive that did not time out, after a successful handler, returns exactly `bytes_transferred` |
| `Clients.FinishedWaitSeesFinalStatus` | source/T2/net/net.hpp:39-44 | a coherent record with `work_finished` is neither `processing` nor `unprocessed`, so it never yields the connect timeout |
| `Clients.Client.constructor` | source/T2/net/client.cpp:30-35 | the endpoint constructor starts `disconnected` and increments the counter |
| `Clients.Client.FromSocket` | source/T2/net/client.cpp:37-49 | the accepted-socket constructor starts `connected`, takes the peer as destination, and increments the counter |
| `Clients.Client.BeginConnect` | source/T2/net/client.cpp:51-65 | raises the state error unless `disconnected`; otherwise queues one connect record for the destination |
| `Clients.Client.FinishConnect` | source/T2/net/client.cpp:73-101 | the result is `ConnectOutcome` of the status read before disposal; the record is disposed with no status moved; the client ends `connected` only on success and `disconnected` on both failure paths |
| `Clients.Client.Disconnect` | source/T2/net/client.cpp:103-109 | raises unless `connected`; always ends `disconnected` |
| `Clients.Client.Destroy` | source/T2/net/client.cpp:221-232 | ends `disconnected` after disconnecting if `connected`, then follows `Released` |
| `Clients.BeginReceive` | source/T2/net/client.cpp:161-181 | increments the counter (the dispatcher starts on 0 → 1) and queues one receive record |
| `Clients.FinishReceive` | source/T2/net/client.cpp:183-219 | the waiter returned without timing out only if `work_finished` was set (utility.cpp:15); the result is `ReceiveOutcome` of that verdict and of the byte count and status read before disposal; the record is disposed |
| `Clients.SendDataBase` | source/T2/net/client.cpp:120-159 | increments the counter, and raises the send error exactly when the write fell short |
| `Clients.ConnectDisconnectReconnect` | tests/tests.cpp:52-63 | connect, disconnect and connect again on one client, through a running dispatcher and a reactor that reports success: both connects succeed |
| `Clients.ConnectOnce` | source/T2/net/client.cpp:51-101 | a connect from `disconnected`, swept by a running dispatcher and answered with success, succeeds and ends `connected` |
| `Servers.FirstStop` | source/T2/net/server.cpp:15-28 | the first handler that ends the iteration: every earlier handler returned, or threw a `runtime_error` with `catch_listeners` set; the handler at that position did neither |
| `Servers.CatchingRunsEveryHandler` | source/T2/net/server.cpp:15-23 | with `catch_listeners` and only `runtime_error`s thrown, every handler runs |
| `Servers.NotCatchingStopsAtFirstThrow` | source/T2/net/server.cpp:24-27 | without `catch_listeners`, iteration ends at the first handler that throws |
| `Servers.CallHandlers` | source/T2/net/server.cpp:12-33 | handlers run in order up to and including the first stopping one; the client is deleted exactly once and the call succeeds or raises the listener error; a non-`runtime_error` escapes with no deletion |
| `Servers.Server.constructor` | source/T2/net/server.cpp:10-10 | a new server is not listening, not cleaned up, and has no accept loop |
| `Servers.Server.StartListening` | source/T2/net/server.cpp:78-89 | raises if already listening and otherwise raises the flag and starts one more accept loop with the handlers; the flag is up afterwards |
| `Servers.Server.StartListeningWith` | source/T2/net/server.cpp:70-76 | behaves as `StartListening` with the one-element handler list |
| `Servers.Server.StopListening` | source/T2/net/server.cpp:91-97 | raises if not listening, otherwise lowers the flag; the flag is down afterwards |
| `Servers.Server.ListenLoopIteration` | source/T2/net/server.cpp:47-67 | a running accept loop goes on exactly while listening; when it leaves it sets `cleaned_up` and its thread ends |
| `Servers.Server.Destroy` | source/T2/net/server.cpp:99-105 | stops listening first if still listening, so the flag is down before it waits; it waits exactly when no loop has cleaned up, and changes neither `cleaned_up` nor the running loops |
| `Servers.ListenAndStop` | tests/tests.cpp:33-41 | start and stop on a fresh server both succeed, and the accept loop then cleans up |
| `Servers.DestroyNeverListened` | source/T2/net/server.cpp:99-106 | a server destroyed without ever listening waits for `cleaned_up` with no accept loop left to raise it |
| `Servers.RestartNotAwaited` | source/T2/net/server.cpp:78-106 | after start, stop, the loop's exit and a second start, `~server` does not wait although one accept loop still runs |
| `Utility.ElapsedLowerBound` | source/T2/utility/utility.cpp:11-14 | a clock advancing at least `intermission` per sleep has advanced at least `k * intermission` by the k-th test |
| `Utility.BlockingTimer` | source/T2/utility/utility.cpp:7-16 | polls while time is left and the flag is down; it stops at the first test that fails; the result is the negation of the flag read at exit; a flag already set means no sleep; with a flag stable at exit, true implies the deadline passed; the poll count is bounded by the duration over `intermission` |
| `Utility.ExceptionWrapper` | source/T2/utility/utility.cpp:23-33 | true exactly when the wrapped call threw, whatever it threw |

## Left out

- Boost.Asio itself is left out: `async_connect`, `async_receive`, `io_context.run()`/`restart()`, `socket.send`, `cancel`/`close`, endpoint queries, `set_option(keep_alive)` and the acceptor with its would-block code. Their outcomes are inputs: the error and byte count of the completion handlers, `sentAll` for a send, and the waiter's verdict for a receive.
- The dispatcher thread is modelled only as the `dispatcherAlive` flag and the mutexes only as the blocking of `count_lock` while `retire_signal` is up. Threads, the queue mutex and sleeps are left out. The dispatcher, the handlers and the callers are separate sequential operations, each one atomic. The busy waits in `retire` and `~server` are not loops in the model: `Retire` only raises the signal, and `Server.Destroy` returns whether it would wait.
- Broker.Iterated: the dispatcher's exit test (source/T2/net/client.cpp:241) and its write of `finished_retiring` (source/T2/net/client.cpp:348) are one step, as is `Broker.RequestBroker.DispatcherIteration`. The model therefore does not show a `retire` writing `retire_signal` between the two, which the write at line 348 then answers.
- Endpoint queries and `set_option` are assumed to succeed. In the C++ code `remote_endpoint()` in `receive_data_base` (source/T2/net/client.cpp:192) runs before the timeout branch, so a timed-out receive on a closed socket throws instead of returning 0; on `connect`'s success path `local_endpoint()` and `set_option` (source/T2/net/client.cpp:96, 99) can throw before the state becomes `connected`.
- Broker.RequestBroker.CompleteConnect: the C++ handler writes the status before `work_finished`. The model does both in one step and so does not show the in-between state; the ordering shows up only as the kept invariant that `work_finished` implies a processed status.
- Utility.BlockingTimer: requires a positive `intermission` and a clock that advances at least that much per sleep; a zero intermission is not modelled.
- The receive buffer's contents are not modelled; only its capacity and the stored byte count are.
- `send_data_base` models only its counter increment and its error. The byte-count comparison is reduced to the `sentAll` input.
- `client::send_data`, `client::receive_data` and `get_source` forward to the static functions or return a field; they are not modelled separately.
- `listen_loop` is modelled only through its effect on `actively_listening` and `cleaned_up`. Creating a client for an accepted socket (`Clients.Client.FromSocket`) and running `call_handlers` on it (`Servers.CallHandlers`) are modelled separately.
- Debug logging, hex dumps, `lexical_cast`, the echo example and the protocol stubs are left out.
