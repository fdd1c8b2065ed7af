/**
 * The connection object of source/T2/net/client.cpp: its connected /
 * disconnected state machine and how `connect` and `receive_data_base` turn
 * the state of their request record into a result or an error.
 *
 * `connect` and `receive_data_base` push a record and then wait in
 * `blocking_timer` while the dispatcher and the reactor work on it. The model
 * splits each of them at that wait: `BeginConnect`/`BeginReceive` run up to the
 * push, `FinishConnect`/`FinishReceive` run from the end of the wait on. What
 * happens in between is any sequence of `DispatcherIteration`,
 * `CompleteConnect` and `CompleteReceive` calls on the broker.
 */
module Clients {
  import opened Wrappers
  import opened Requests
  import opened Broker

  /** `connection_states` (source/T2/net/net.hpp:75-78). */
  datatype ConnectionState = Disconnected | Connected

  /** The `runtime_error`s the client raises. */
  datatype ClientError =
    | AlreadyConnected     // connect while not disconnected
    | AlreadyDisconnected  // disconnect while not connected
    | ConnectTimedOut      // the connect handler was not called in time
    | ConnectFailed        // the connect handler reported an error
    | ReceiveFailed        // the receive handler reported an error
    | SendFailed           // fewer bytes were sent than requested

  /** How `connect` maps the status it read after the wait
      (source/T2/net/client.cpp:78-95): still `processing` is a timeout,
      any other status but `success` is a connection error. */
  function ConnectOutcome(status: RequestStatus): (o: Outcome<ClientError>)
    ensures o == Pass <==> status == Success
    ensures o == Fail(ConnectTimedOut) <==> status == Processing
    ensures o == Fail(ConnectFailed) <==> status == Unprocessed || status == Failed
  {
    if status == Processing then Fail(ConnectTimedOut)
    else if status != RequestStatus.Success then assert status.Unprocessed? || status.Failed?; Fail(ConnectFailed)
    else Pass
  }

  /** How `receive_data_base` maps what it read after the wait
      (source/T2/net/client.cpp:194-218): a timeout is 0 bytes whatever the
      status; otherwise anything but `success` is an error and `success`
      returns the stored byte count. */
  function ReceiveOutcome(timedOut: bool, status: RequestStatus, bytesReceived: nat): (r: Result<nat, ClientError>)
    ensures timedOut ==> r == Ok(0)
    ensures !timedOut ==> (r.Ok? <==> status == Success)
    ensures !timedOut && r.Ok? ==> r.value == bytesReceived
    ensures r.Err? ==> r.error == ReceiveFailed
  {
    if timedOut then Ok(0)
    else if status != RequestStatus.Success then Err(ReceiveFailed)
    else Ok(bytesReceived)
  }

  /** A connect record whose handler has run never reports a timeout: the
      handler's verdict decides between success and a connection error. */
  lemma HandledConnectOutcome(r: Request, error: bool)
    ensures ConnectOutcome(ConnectHandled(r, error).status) == if error then Fail(ConnectFailed) else Pass
  {
  }

  /** A receive that did not time out after a successful handler returns exactly
      the `bytes_transferred` the reactor reported. */
  lemma HandledReceiveReturnsTransferred(r: Request, bytesTransferred: nat)
    requires r.Kind() == ReceiveData
    ensures var h := ReceiveHandled(r, false, bytesTransferred);
            ReceiveOutcome(false, h.status, h.details.bytesReceived) == Ok(bytesTransferred)
  {
  }

  /** A waiter that saw `work_finished` (so did not time out) on a coherent
      record never reads `processing` or `unprocessed`, so `connect` does not
      report a timeout. */
  lemma FinishedWaitSeesFinalStatus(r: Request)
    requires Coherent(r) && r.workFinished
    ensures r.status != Processing && r.status != Unprocessed
    ensures ConnectOutcome(r.status) != Fail(ConnectTimedOut)
  {
  }

  class Client {
    /** The process-wide state shared by all clients. */
    const broker: RequestBroker
    /** `connection_socket`. */
    const socket: SocketId
    /** `destination`. */
    const destination: Endpoint
    /** `connection_state`. */
    var connectionState: ConnectionState

    /** `client(const endpoint&)` (source/T2/net/client.cpp:30-35): starts
        disconnected and counts itself in. */
    constructor (broker: RequestBroker, socket: SocketId, destination: Endpoint)
      requires broker.Valid() && broker.retiredFlag != RetireSignal
      modifies broker`activeInstanceCount, broker`dispatcherAlive
      ensures broker.Valid()
      ensures this.broker == broker && this.socket == socket && this.destination == destination
      ensures connectionState == Disconnected
      ensures broker.State() == Initialized(old(broker.State())).0
    {
      this.broker := broker;
      this.socket := socket;
      this.destination := destination;
      connectionState := Disconnected;
      new;
      var startDispatcher := broker.Initialization();
    }

    /** `client(socket&)` (source/T2/net/client.cpp:37-49): adopts an accepted
        socket, so it starts connected; the destination is the peer. */
    constructor FromSocket(broker: RequestBroker, socket: SocketId, remote: Endpoint)
      requires broker.Valid() && broker.retiredFlag != RetireSignal
      modifies broker`activeInstanceCount, broker`dispatcherAlive
      ensures broker.Valid()
      ensures this.broker == broker && this.socket == socket && this.destination == remote
      ensures connectionState == Connected
      ensures broker.State() == Initialized(old(broker.State())).0
    {
      this.broker := broker;
      this.socket := socket;
      this.destination := remote;
      connectionState := Connected;
      new;
      var startDispatcher := broker.Initialization();
    }

    /** `connect` up to the wait (source/T2/net/client.cpp:52-65): refuse
        unless disconnected, otherwise queue a connect record for the
        destination. */
    method BeginConnect() returns (r: Result<RequestId, ClientError>)
      requires broker.Valid()
      modifies broker`queue, broker`nextId
      ensures broker.Valid() && connectionState == old(connectionState)
      ensures old(connectionState) != Disconnected ==>
                r == Err(AlreadyConnected) && broker.queue == old(broker.queue)
      ensures old(connectionState) == Disconnected ==>
                && r.Ok? && broker.Holds(r.value)
                && broker.queue == old(broker.queue) + [NewConnectRequest(r.value, socket, destination)]
    {
      if connectionState != Disconnected {
        return Err(AlreadyConnected);
      }
      var id := broker.SubmitConnect(socket, destination);
      r := Ok(id);
    }

    /** `connect` after the wait (source/T2/net/client.cpp:73-100): read the
        status, set `disposal_flag`, then branch on the status read. Both
        failure paths end disconnected; success ends connected. */
    method FinishConnect(id: RequestId) returns (o: Outcome<ClientError>)
      requires broker.Valid() && broker.Holds(id)
      modifies this`connectionState, broker`queue
      ensures broker.Valid()
      ensures o == ConnectOutcome(old(broker.queue[IndexOf(broker.queue, id)].status))
      ensures broker.queue == UpdateById(old(broker.queue), id, (r: Request) => r.(disposalFlag := true))
      ensures QueueProgress(old(broker.queue), broker.queue)
      ensures connectionState == if o.Pass? then Connected else Disconnected
    {
      var status := broker.queue[IndexOf(broker.queue, id)].status;
      broker.Dispose(id);
      if status == Processing {
        if connectionState == Connected {
          var _ := Disconnect();
        }
        o := Fail(ConnectTimedOut);
      } else if status != RequestStatus.Success {
        if connectionState == Connected {
          var _ := Disconnect();
        }
        o := Fail(ConnectFailed);
      } else {
        connectionState := Connected;
        o := Pass;
      }
    }

    /** `disconnect` (source/T2/net/client.cpp:103-109): refuse unless
        connected; always ends disconnected. */
    method Disconnect() returns (o: Outcome<ClientError>)
      modifies this`connectionState
      ensures o == if old(connectionState) == Connected then Pass else Fail(AlreadyDisconnected)
      ensures connectionState == Disconnected
    {
      if connectionState != Connected {
        return Fail(AlreadyDisconnected);
      }
      connectionState := Disconnected;
      o := Pass;
    }

    /** `~client` (source/T2/net/client.cpp:221-232): disconnect first if
        connected, then count itself out; `retired` when that was the last
        live instance. */
    method Destroy() returns (retired: bool)
      requires broker.Valid() && broker.retiredFlag != RetireSignal
      requires broker.activeInstanceCount > 0
      modifies this`connectionState, broker`activeInstanceCount, broker`retiredFlag
      ensures broker.Valid()
      ensures connectionState == Disconnected
      ensures (broker.State(), retired) == Released(old(broker.State()))
    {
      if connectionState == Connected {
        var _ := Disconnect();
      }
      retired := broker.Release();
    }
  }

  /** `receive_data_base` up to the wait (source/T2/net/client.cpp:164-181):
      count one more live user and queue a receive record. */
  method BeginReceive(broker: RequestBroker, socket: SocketId, bufferSize: nat)
    returns (id: RequestId, startDispatcher: bool)
    requires broker.Valid() && broker.retiredFlag != RetireSignal
    modifies broker
    ensures broker.Valid() && broker.Holds(id)
    ensures (broker.State(), startDispatcher) == Initialized(old(broker.State()))
    ensures broker.queue == old(broker.queue) + [NewReceiveRequest(id, socket, bufferSize)]
  {
    startDispatcher := broker.Initialization();
    id := broker.SubmitReceive(socket, bufferSize);
  }

  /** `receive_data_base` after the wait (source/T2/net/client.cpp:186-218):
      read the byte count and the status, set `disposal_flag`, then map them
      with the waiter's verdict. */
  method FinishReceive(broker: RequestBroker, id: RequestId, timedOut: bool)
    returns (r: Result<nat, ClientError>)
    requires broker.Valid() && broker.Holds(id)
    requires broker.queue[IndexOf(broker.queue, id)].Kind() == ReceiveData
    requires !timedOut ==> broker.queue[IndexOf(broker.queue, id)].workFinished
    modifies broker`queue
    ensures broker.Valid()
    ensures var request := old(broker.queue[IndexOf(broker.queue, id)]);
            r == ReceiveOutcome(timedOut, request.status, request.details.bytesReceived)
    ensures broker.queue == UpdateById(old(broker.queue), id, (x: Request) => x.(disposalFlag := true))
    ensures QueueProgress(old(broker.queue), broker.queue)
  {
    var request := broker.queue[IndexOf(broker.queue, id)];
    var bytesReceived := request.details.bytesReceived;
    var status := request.status;
    broker.Dispose(id);
    if timedOut {
      return Ok(0);
    } else if status != RequestStatus.Success {
      return Err(ReceiveFailed);
    }
    r := Ok(bytesReceived);
  }

  /** `send_data_base` (source/T2/net/client.cpp:120-159): counts one more
      live user; the socket write is foreign, its verdict is `sentAll`. */
  method SendDataBase(broker: RequestBroker, sentAll: bool)
    returns (o: Outcome<ClientError>, startDispatcher: bool)
    requires broker.Valid() && broker.retiredFlag != RetireSignal
    modifies broker`activeInstanceCount, broker`dispatcherAlive
    ensures broker.Valid()
    ensures (broker.State(), startDispatcher) == Initialized(old(broker.State()))
    ensures o == if sentAll then Pass else Fail(SendFailed)
  {
    startDispatcher := broker.Initialization();
    o := if sentAll then Pass else Fail(SendFailed);
  }

  /** The client half of the "Connect client to server" case of
      tests/tests.cpp:52-63: connect, disconnect, and connect again, with the
      dispatcher sweeping and the reactor reporting success in each wait. Both
      connects succeed: reconnecting after a disconnect is allowed. */
  method ConnectDisconnectReconnect(broker: RequestBroker, socket: SocketId, destination: Endpoint)
    returns (first: Outcome<ClientError>, second: Outcome<ClientError>)
    requires broker.Valid() && broker.retiredFlag == NormalOperation
    modifies broker
    ensures first == Pass && second == Pass
  {
    var client := new Client(broker, socket, destination);
    first := ConnectOnce(client);
    var _ := client.Disconnect();
    second := ConnectOnce(client);
  }

  /** One connect on a disconnected client through a running dispatcher whose
      reactor reports success. */
  method ConnectOnce(client: Client) returns (o: Outcome<ClientError>)
    requires client.broker.Valid() && client.broker.retiredFlag == NormalOperation
    requires client.broker.activeInstanceCount > 0
    requires client.connectionState == Disconnected
    modifies client, client.broker
    ensures client.broker.Valid() && client.broker.retiredFlag == NormalOperation
    ensures client.broker.activeInstanceCount == old(client.broker.activeInstanceCount)
    ensures o == Pass && client.connectionState == Connected
  {
    var broker := client.broker;
    var r := client.BeginConnect();
    var id := r.value;
    ghost var q := broker.queue;
    var running, submitted := broker.DispatcherIteration();
    SweptKeepsUndisposed(q, broker.nextId, id);
    ghost var k := IndexOf(broker.queue, id);
    broker.CompleteConnect(id, false);
    assert broker.queue[k].id == id && broker.queue[k].status == RequestStatus.Success;
    o := client.FinishConnect(id);
  }
}
