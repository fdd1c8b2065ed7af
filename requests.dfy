/**
 * The request record that a client hands to the shared dispatcher
 * (`asio_request` in source/T2/net/net.hpp).
 *
 * The C++ record is a tag (`request_type`) next to an untagged union; here the
 * union is a datatype, so the tag is derived from the payload and can never
 * disagree with it.
 */
module Requests {

  /** Identity of a record in the queue; stands in for the heap pointer. */
  type RequestId = nat

  /** Identity of the socket a request is issued on. */
  type SocketId = nat

  /** A TCP port number (`uint16_t`). */
  type Port = p: int | 0 <= p < 0x1_0000

  /** A TCP endpoint: address and port. */
  datatype Endpoint = Endpoint(address: string, port: Port)

  /** `asio_request_types`: there is no send request, sending is synchronous. */
  datatype RequestType = Connect | ReceiveData

  /** `request_statuses`. There is no timeout status: a timeout shows as
      `workFinished` staying false. */
  datatype RequestStatus = Unprocessed | Processing | Success | Failed
  {
    /** The statuses the header comments call "processed". */
    predicate IsProcessed() {
      this == Success || this == Failed
    }
  }

  /** The union payload `request_specific`. The receive buffer is represented
      only by its capacity: its bytes are written by the reactor. */
  datatype RequestDetails =
    | ConnectionDetails(endpoint: Endpoint)
    | ReceiveDetails(bufferSize: nat, bytesReceived: nat)

  datatype Request = Request(
    id: RequestId,
    socket: SocketId,
    status: RequestStatus,
    workFinished: bool,   // set by the completion handler, last
    disposalFlag: bool,   // set by the submitter once it has read the result
    details: RequestDetails)
  {
    /** The request's tag. */
    function Kind(): (k: RequestType)
      ensures k == Connect <==> details.ConnectionDetails?
      ensures k == ReceiveData <==> details.ReceiveDetails?
    {
      if details.ConnectionDetails? then Connect else ReceiveData
    }
  }

  /** The order a record's status moves in: `unprocessed` may move to any
      later status, `processing` to a final one, and `success` and `failed`
      never change (source/T2/net/client.cpp:267-268, 276-295, 306-327). */
  predicate StatusFollows(before: RequestStatus, after: RequestStatus) {
    || before == after
    || (before == Unprocessed && after != Unprocessed)
    || (before == Processing && after.IsProcessed())
  }

  /** The status order never moves back, and a final status is final. */
  lemma StatusFollowsIsOrder(a: RequestStatus, b: RequestStatus, c: RequestStatus)
    ensures StatusFollows(a, a)
    ensures StatusFollows(a, b) && StatusFollows(b, c) ==> StatusFollows(a, c)
    ensures StatusFollows(a, b) && StatusFollows(b, a) ==> a == b
    ensures a.IsProcessed() && StatusFollows(a, b) ==> b == a
    ensures StatusFollows(a, b) && a != Unprocessed ==> b != Unprocessed
  {
  }

  /** What a waiter may rely on: once `workFinished` is seen, the status is final. */
  ghost predicate Coherent(r: Request) {
    r.workFinished ==> r.status.IsProcessed()
  }

  /** A record as `connect` creates it (source/T2/net/client.cpp:55-62). */
  function NewConnectRequest(id: RequestId, socket: SocketId, endpoint: Endpoint): (r: Request)
    ensures r.id == id && r.socket == socket && r.Kind() == Connect
    ensures r.details.ConnectionDetails? && r.details.endpoint == endpoint
    ensures r.status == Unprocessed && !r.workFinished && !r.disposalFlag
    ensures Coherent(r)
  {
    Request(id, socket, Unprocessed, false, false, ConnectionDetails(endpoint))
  }

  /** A record as `receive_data_base` creates it (source/T2/net/client.cpp:169-177). */
  function NewReceiveRequest(id: RequestId, socket: SocketId, bufferSize: nat): (r: Request)
    ensures r.id == id && r.socket == socket && r.Kind() == ReceiveData
    ensures r.details == ReceiveDetails(bufferSize, 0)
    ensures r.status == Unprocessed && !r.workFinished && !r.disposalFlag
    ensures Coherent(r)
  {
    Request(id, socket, Unprocessed, false, false, ReceiveDetails(bufferSize, 0))
  }

  /** What one dispatcher visit does to a record it keeps: an unprocessed
      record becomes `processing`; every other record is left as it is. */
  function Advance(r: Request): (r': Request)
    ensures r.status == Unprocessed ==> r'.status == Processing
    ensures r.status != Unprocessed ==> r' == r
    ensures r'.(status := r.status) == r
    ensures StatusFollows(r.status, r'.status)
    ensures Coherent(r) ==> Coherent(r')
  {
    if r.status == Unprocessed then r.(status := Processing) else r
  }

  /** The `async_connect` completion handler (source/T2/net/client.cpp:274-297):
      `failed` on an error, `success` otherwise, and then `workFinished`. */
  function ConnectHandled(r: Request, error: bool): (r': Request)
    ensures r'.status == (if error then Failed else Success)
    ensures r.status == Processing ==> StatusFollows(r.status, r'.status)
    ensures r'.workFinished && Coherent(r')
    ensures r'.id == r.id && r'.socket == r.socket
    ensures r'.disposalFlag == r.disposalFlag && r'.details == r.details
  {
    r.(status := if error then Failed else Success, workFinished := true)
  }

  /** The `async_receive` completion handler (source/T2/net/client.cpp:303-328):
      on an error `failed` and the byte count untouched; otherwise the byte
      count is stored and the status is `success`; `workFinished` last. */
  function ReceiveHandled(r: Request, error: bool, bytesTransferred: nat): (r': Request)
    requires r.Kind() == ReceiveData
    ensures r'.status == (if error then Failed else Success)
    ensures r.status == Processing ==> StatusFollows(r.status, r'.status)
    ensures r'.workFinished && Coherent(r')
    ensures r'.Kind() == ReceiveData && r'.details.bufferSize == r.details.bufferSize
    ensures r'.details.bytesReceived == (if error then r.details.bytesReceived else bytesTransferred)
    ensures r'.id == r.id && r'.socket == r.socket && r'.disposalFlag == r.disposalFlag
  {
    if error then
      r.(status := Failed, workFinished := true)
    else
      r.(details := r.details.(bytesReceived := bytesTransferred),
         status := Success, workFinished := true)
  }
}
