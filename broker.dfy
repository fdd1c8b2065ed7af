/**
 * The process-wide request broker of source/T2/net/client.cpp: the queue of
 * pending request records swept by the dispatcher (`asio_loop`), the completion
 * handlers the reactor calls, the live-instance counter that starts the
 * dispatcher (`initialization`) and the retire flag that stops it (`retire`).
 *
 * In the C++ code these are static members of `client`; here they are the
 * fields of one `RequestBroker` object that every client is given.
 */
module Broker {
  import opened Wrappers
  import opened Requests

  // ---------------------------------------------------------------------------
  // Lifecycle: the live-instance counter, the retire flag and the dispatcher
  // ---------------------------------------------------------------------------

  /** `retire_flags` (source/T2/net/net.hpp:63-67). */
  datatype RetireFlag = NormalOperation | RetireSignal | FinishedRetiring

  /** The counter `active_instance_count` together with `retired_flag`, and
      whether a dispatcher thread (`asio_loop`) is running. */
  datatype Lifecycle = Lifecycle(activeInstances: nat, retiredFlag: RetireFlag, dispatcherAlive: bool)

  /** The state before any client exists (both statics' initialisers); no
      dispatcher thread has been started. */
  const InitialLifecycle := Lifecycle(0, NormalOperation, false)

  /** `initialization`: count one more live user; a dispatcher thread is
      started exactly when the count was 0 before the increment. The retire
      flag is not touched. */
  function Initialized(l: Lifecycle): (r: (Lifecycle, bool))
    ensures r.0.activeInstances == l.activeInstances + 1
    ensures r.0.retiredFlag == l.retiredFlag
    ensures r.1 <==> l.activeInstances == 0
    ensures r.0.dispatcherAlive <==> l.dispatcherAlive || r.1
  {
    var start := l.activeInstances == 0;
    (l.(activeInstances := l.activeInstances + 1, dispatcherAlive := l.dispatcherAlive || start), start)
  }

  /** The counter part of `~client`: count one user fewer; `retire` (which
      raises `retire_signal`) runs exactly when the decrement yields 0. */
  function Released(l: Lifecycle): (r: (Lifecycle, bool))
    requires l.activeInstances > 0
    ensures r.0.activeInstances + 1 == l.activeInstances
    ensures r.1 <==> r.0.activeInstances == 0
    ensures r.0.retiredFlag == if r.1 then RetireSignal else l.retiredFlag
    ensures r.0.dispatcherAlive == l.dispatcherAlive
  {
    var n := l.activeInstances - 1;
    (l.(activeInstances := n, retiredFlag := if n == 0 then RetireSignal else l.retiredFlag), n == 0)
  }

  /** One test of a running dispatcher's outer loop: it goes on while the flag
      is `normal_operation`; otherwise it leaves the loop, answers with
      `finished_retiring` and the thread ends. */
  function Iterated(l: Lifecycle): (r: (Lifecycle, bool))
    requires l.dispatcherAlive
    ensures r.1 <==> l.retiredFlag == NormalOperation
    ensures r.0.activeInstances == l.activeInstances
    ensures r.0.retiredFlag == if r.1 then l.retiredFlag else FinishedRetiring
    ensures r.0.dispatcherAlive == r.1
  {
    if l.retiredFlag == NormalOperation then (l, true)
    else (l.(retiredFlag := FinishedRetiring, dispatcherAlive := false), false)
  }

  /** What touches the lifecycle state: a constructor, a `send_data_base` or
      `receive_data_base` call (each calls `initialization`), a destructor,
      and one test of the dispatcher's loop. */
  datatype Event = Construct | SendOrReceive | Destroy | DispatcherIteration

  /** The state after a sequence of events, or `None` if some event cannot
      happen: a destructor with no live instance (the C++ object lifetimes
      rule it out), a loop test with no dispatcher thread, or an
      `initialization` or a destructor while a retiring destructor holds
      `count_lock` (client.cpp:225-227). That lock is held exactly while the
      flag is `retire_signal`: `retire` raises it and waits until the
      dispatcher replaces it. */
  function Run(l: Lifecycle, events: seq<Event>): Option<Lifecycle>
    decreases |events|
  {
    if events == [] then Some(l)
    else
      match events[0]
      case Construct =>
        if l.retiredFlag == RetireSignal then None else Run(Initialized(l).0, events[1..])
      case SendOrReceive =>
        if l.retiredFlag == RetireSignal then None else Run(Initialized(l).0, events[1..])
      case Destroy =>
        if l.activeInstances == 0 || l.retiredFlag == RetireSignal then None
        else Run(Released(l).0, events[1..])
      case DispatcherIteration =>
        if !l.dispatcherAlive then None else Run(Iterated(l).0, events[1..])
  }

  /** Running two traces one after the other is running their concatenation. */
  lemma {:induction false} RunConcat(l: Lifecycle, a: seq<Event>, b: seq<Event>)
    ensures Run(l, a + b) == if Run(l, a).Some? then Run(Run(l, a).value, b) else None
    decreases |a|
  {
    if a == [] {
      assert a + b == b;
    } else {
      assert (a + b)[0] == a[0] && (a + b)[1..] == a[1..] + b;
      match a[0]
      case Construct => RunConcat(Initialized(l).0, a[1..], b);
      case SendOrReceive => RunConcat(Initialized(l).0, a[1..], b);
      case Destroy =>
        if l.activeInstances > 0 && l.retiredFlag != RetireSignal {
          RunConcat(Released(l).0, a[1..], b);
        }
      case DispatcherIteration =>
        if l.dispatcherAlive {
          RunConcat(Iterated(l).0, a[1..], b);
        }
    }
  }

  /** The number of events that call `initialization`. */
  function Increments(events: seq<Event>): nat
    decreases |events|
  {
    if events == [] then 0
    else (if events[0] == Construct || events[0] == SendOrReceive then 1 else 0) + Increments(events[1..])
  }

  /** The number of destructor events. */
  function Decrements(events: seq<Event>): nat
    decreases |events|
  {
    if events == [] then 0
    else (if events[0] == Destroy then 1 else 0) + Decrements(events[1..])
  }

  /** The counter is raised by every construction and every send or receive,
      and lowered only by destructors. */
  lemma {:induction false} CounterBalance(l: Lifecycle, events: seq<Event>)
    requires Run(l, events).Some?
    ensures Run(l, events).value.activeInstances + Decrements(events)
         == l.activeInstances + Increments(events)
    decreases |events|
  {
    if events != [] {
      match events[0]
      case Construct => CounterBalance(Initialized(l).0, events[1..]);
      case SendOrReceive => CounterBalance(Initialized(l).0, events[1..]);
      case Destroy => CounterBalance(Released(l).0, events[1..]);
      case DispatcherIteration => CounterBalance(Iterated(l).0, events[1..]);
    }
  }

  /** What holds between events: while the flag is `normal_operation` and a
      user is live, a dispatcher thread is running; `retire_signal` is up only
      once the count has reached 0. */
  ghost predicate LifecycleValid(l: Lifecycle) {
    && (l.retiredFlag == NormalOperation && l.activeInstances > 0 ==> l.dispatcherAlive)
    && (l.retiredFlag == RetireSignal ==> l.activeInstances == 0)
  }

  /** Every trace from a valid state ends in a valid state. */
  lemma {:induction false} RunKeepsLifecycleValid(l: Lifecycle, events: seq<Event>)
    requires LifecycleValid(l)
    requires Run(l, events).Some?
    ensures LifecycleValid(Run(l, events).value)
    decreases |events|
  {
    if events != [] {
      match events[0]
      case Construct => RunKeepsLifecycleValid(Initialized(l).0, events[1..]);
      case SendOrReceive => RunKeepsLifecycleValid(Initialized(l).0, events[1..]);
      case Destroy => RunKeepsLifecycleValid(Released(l).0, events[1..]);
      case DispatcherIteration => RunKeepsLifecycleValid(Iterated(l).0, events[1..]);
    }
  }

  /** Once the retire flag has left `normal_operation` it never returns to it:
      nothing ever resets it. */
  lemma {:induction false} RetireFlagNeverReset(l: Lifecycle, events: seq<Event>)
    requires l.retiredFlag != NormalOperation
    requires Run(l, events).Some?
    ensures Run(l, events).value.retiredFlag != NormalOperation
    decreases |events|
  {
    if events != [] {
      match events[0]
      case Construct => RetireFlagNeverReset(Initialized(l).0, events[1..]);
      case SendOrReceive => RetireFlagNeverReset(Initialized(l).0, events[1..]);
      case Destroy => RetireFlagNeverReset(Released(l).0, events[1..]);
      case DispatcherIteration => RetireFlagNeverReset(Iterated(l).0, events[1..]);
    }
  }

  /** From the initial state, once a destructor has brought the count to 0
      (the first retirement), every later test of any dispatcher's loop, also
      one of a thread started by a later 0 -> 1 transition, leaves the loop:
      the queue is never swept again. */
  lemma NoSweepAfterRetirement(before: seq<Event>, after: seq<Event>)
    requires Run(InitialLifecycle, before).Some?
    requires Run(InitialLifecycle, before).value.activeInstances == 1
    requires Run(InitialLifecycle, before + [Destroy] + after).Some?
    requires Run(InitialLifecycle, before + [Destroy] + after).value.dispatcherAlive
    ensures !Iterated(Run(InitialLifecycle, before + [Destroy] + after).value).1
  {
    var m := Run(InitialLifecycle, before).value;
    RunConcat(InitialLifecycle, before + [Destroy], after);
    RunConcat(InitialLifecycle, before, [Destroy]);
    assert Run(InitialLifecycle, before + [Destroy]) == Some(Released(m).0);
    RetireFlagNeverReset(Released(m).0, after);
  }

  /** A state in which no lifecycle event can ever happen again. */
  ghost predicate Deadlocked(l: Lifecycle) {
    forall events: seq<Event> :: events != [] ==> Run(l, events) == None
  }

  /** A retiring destructor that finds no dispatcher thread waits for ever:
      only a running dispatcher writes `finished_retiring`, and every other
      event waits for `count_lock`. */
  lemma RetireWithoutDispatcherDeadlocks(l: Lifecycle)
    requires l.retiredFlag == RetireSignal && !l.dispatcherAlive
    ensures Deadlocked(l)
  {
  }

  /** After a completed retirement with no user left, the next client is
      counted in (0 -> 1 starts a new dispatcher thread), that thread tests
      its loop once and leaves, and the client is destroyed (1 -> 0): the
      destructor's `retire` then waits for ever while holding `count_lock`, so
      no later `initialization` or destructor returns. */
  lemma {:induction false} SecondRetirementDeadlocks(events: seq<Event>)
    requires Run(InitialLifecycle, events).Some?
    requires Run(InitialLifecycle, events).value.retiredFlag == FinishedRetiring
    requires Run(InitialLifecycle, events).value.activeInstances == 0
    ensures Run(InitialLifecycle, events + [Construct, DispatcherIteration, Destroy])
         == Some(Lifecycle(0, RetireSignal, false))
    ensures Deadlocked(Lifecycle(0, RetireSignal, false))
  {
    RunConcat(InitialLifecycle, events, [Construct, DispatcherIteration, Destroy]);
    RetireWithoutDispatcherDeadlocks(Lifecycle(0, RetireSignal, false));
  }

  /** Such a state is reached from the initial one: one client created and
      destroyed, and the dispatcher answering that retirement. */
  lemma SecondRetirementReachable()
    ensures Run(InitialLifecycle, [Construct, Destroy, DispatcherIteration]) == Some(Lifecycle(0, FinishedRetiring, false))
  {
  }

  // ---------------------------------------------------------------------------
  // The queue sweep: specification
  // ---------------------------------------------------------------------------

  /** What one visit of the sweep leaves of a record: nothing if it is
      disposed, the advanced record otherwise. */
  function Visit(r: Request): seq<Request> {
    if r.disposalFlag then [] else [Advance(r)]
  }

  /** The queue after one sweep over `s`. */
  function Swept(s: seq<Request>): seq<Request>
    decreases |s|
  {
    if s == [] then [] else Swept(s[..|s| - 1]) + Visit(s[|s| - 1])
  }

  /** The ids the sweep hands to the reactor (`async_connect` or
      `async_receive`), in queue order. */
  function Submitted(s: seq<Request>): seq<RequestId>
    decreases |s|
  {
    if s == [] then []
    else
      var r := s[|s| - 1];
      Submitted(s[..|s| - 1]) + (if !r.disposalFlag && r.status == Unprocessed then [r.id] else [])
  }

  /** Positions of `s` whose record survives the sweep. */
  function Survivors(s: seq<Request>): seq<nat>
    decreases |s|
  {
    if s == [] then []
    else Survivors(s[..|s| - 1]) + (if s[|s| - 1].disposalFlag then [] else [|s| - 1])
  }

  /** The number of records the sweep erases. */
  function Disposed(s: seq<Request>): nat
    decreases |s|
  {
    if s == [] then 0 else Disposed(s[..|s| - 1]) + (if s[|s| - 1].disposalFlag then 1 else 0)
  }

  /** The surviving positions are, in increasing order, exactly the positions
      whose record is not disposed. */
  lemma {:induction false} SurvivorsAreTheUndisposed(s: seq<Request>)
    ensures forall j :: 0 <= j < |Survivors(s)| ==> Survivors(s)[j] < |s|
    ensures forall i, j :: 0 <= i < j < |Survivors(s)| ==> Survivors(s)[i] < Survivors(s)[j]
    ensures forall k :: 0 <= k < |s| ==> (k in Survivors(s) <==> !s[k].disposalFlag)
    ensures |Survivors(s)| + Disposed(s) == |s|
    decreases |s|
  {
    if s != [] {
      var p := s[..|s| - 1];
      SurvivorsAreTheUndisposed(p);
      assert forall k :: 0 <= k < |p| ==> p[k] == s[k];
    }
  }

  /** The sweep keeps the surviving records in their original relative order,
      each one advanced. */
  lemma {:induction false} SweptIsAdvancedSurvivors(s: seq<Request>)
    ensures |Swept(s)| == |Survivors(s)|
    ensures forall j :: 0 <= j < |Swept(s)| ==>
              Survivors(s)[j] < |s| && Swept(s)[j] == Advance(s[Survivors(s)[j]])
    decreases |s|
  {
    SurvivorsAreTheUndisposed(s);
    if s != [] {
      var p := s[..|s| - 1];
      SweptIsAdvancedSurvivors(p);
      assert forall k :: 0 <= k < |p| ==> p[k] == s[k];
    }
  }

  /** The sweep shrinks the queue by exactly the number of records it erases,
      and an empty queue stays empty. */
  lemma {:induction false} SweptLength(s: seq<Request>)
    ensures |Swept(s)| == |s| - Disposed(s)
    ensures s == [] ==> Swept(s) == []
  {
    SweptIsAdvancedSurvivors(s);
    SurvivorsAreTheUndisposed(s);
  }

  /** After a sweep no disposed record and no unprocessed record is left. */
  lemma {:induction false} SweptLeavesNoDisposedOrUnprocessed(s: seq<Request>)
    ensures forall j :: 0 <= j < |Swept(s)| ==>
              !Swept(s)[j].disposalFlag && Swept(s)[j].status != Unprocessed
  {
    SweptIsAdvancedSurvivors(s);
    SurvivorsAreTheUndisposed(s);
  }

  /** A sweep over a queue with nothing to erase or to submit changes nothing. */
  lemma {:induction false} SweptSettled(s: seq<Request>)
    requires forall j :: 0 <= j < |s| ==> !s[j].disposalFlag && s[j].status != Unprocessed
    ensures Swept(s) == s
    decreases |s|
  {
    if s != [] {
      var p := s[..|s| - 1];
      SweptSettled(p);
      assert s == p + [s[|s| - 1]];
    }
  }

  /** Sweeping twice in a row does no more than sweeping once. */
  lemma SweptIdempotent(s: seq<Request>)
    ensures Swept(Swept(s)) == Swept(s)
  {
    SweptLeavesNoDisposedOrUnprocessed(s);
    SweptSettled(Swept(s));
  }

  /** The sweep submits to the reactor exactly the records that were not
      disposed and still unprocessed. */
  lemma {:induction false} SubmittedAreTheUnprocessed(s: seq<Request>, id: RequestId)
    ensures id in Submitted(s) <==>
            exists k :: 0 <= k < |s| && s[k].id == id && !s[k].disposalFlag && s[k].status == Unprocessed
    decreases |s|
  {
    if s != [] {
      var p := s[..|s| - 1];
      SubmittedAreTheUnprocessed(p, id);
      assert forall k :: 0 <= k < |p| ==> p[k] == s[k];
    }
  }

  // ---------------------------------------------------------------------------
  // Queue invariant and lookup by id
  // ---------------------------------------------------------------------------

  /** Every record is coherent, and ids are distinct and below `bound`. */
  ghost predicate QueueValid(q: seq<Request>, bound: nat) {
    && (forall i :: 0 <= i < |q| ==> Coherent(q[i]) && q[i].id < bound)
    && (forall i, j :: 0 <= i < j < |q| ==> q[i].id != q[j].id)
  }

  /** The sweep keeps the queue invariant. */
  lemma SweptKeepsQueueValid(q: seq<Request>, bound: nat)
    requires QueueValid(q, bound)
    ensures QueueValid(Swept(q), bound)
  {
    SweptIsAdvancedSurvivors(q);
    SurvivorsAreTheUndisposed(q);
  }

  /** A record is erased only once it is disposed: a queued, undisposed record
      is still queued after a sweep, advanced. */
  lemma SweptKeepsUndisposed(q: seq<Request>, bound: nat, id: RequestId)
    requires QueueValid(q, bound)
    requires IndexOf(q, id) >= 0 && !q[IndexOf(q, id)].disposalFlag
    ensures IndexOf(Swept(q), id) >= 0
    ensures Swept(q)[IndexOf(Swept(q), id)] == Advance(q[IndexOf(q, id)])
  {
    var k := IndexOf(q, id);
    SurvivorsAreTheUndisposed(q);
    SweptIsAdvancedSurvivors(q);
    SweptKeepsQueueValid(q, bound);
    assert k in Survivors(q);
    var j :| 0 <= j < |Survivors(q)| && Survivors(q)[j] == k;
    assert Swept(q)[j].id == id;
    assert IndexOf(Swept(q), id) == j;
  }

  /** In a queue with distinct ids, a record is found at its own position. */
  lemma IndexOfDistinct(q: seq<Request>, bound: nat, k: nat)
    requires QueueValid(q, bound) && k < |q|
    ensures IndexOf(q, q[k].id) == k
  {
  }

  /** No record still queued in `q'` has moved back in the status order since
      `q`, and a final status has not changed. */
  ghost predicate QueueProgress(q: seq<Request>, q': seq<Request>) {
    forall i :: 0 <= i < |q'| && IndexOf(q, q'[i].id) >= 0 ==>
      StatusFollows(q[IndexOf(q, q'[i].id)].status, q'[i].status)
  }

  /** A sweep moves statuses only forward. */
  lemma SweptProgresses(q: seq<Request>, bound: nat)
    requires QueueValid(q, bound)
    ensures QueueProgress(q, Swept(q))
  {
    SweptIsAdvancedSurvivors(q);
    forall j | 0 <= j < |Swept(q)|
      ensures IndexOf(q, Swept(q)[j].id) == Survivors(q)[j]
    {
      IndexOfDistinct(q, bound, Survivors(q)[j]);
    }
  }

  /** The position of the record with the given id, or -1. */
  function IndexOf(q: seq<Request>, id: RequestId): (k: int)
    ensures -1 <= k < |q|
    ensures k >= 0 ==> q[k].id == id
    ensures k < 0 <==> forall i :: 0 <= i < |q| ==> q[i].id != id
    decreases |q|
  {
    if q == [] then -1
    else if q[0].id == id then 0
    else
      var k := IndexOf(q[1..], id);
      if k < 0 then -1 else k + 1
  }

  /** The queue with the record `id` (if still queued) replaced by `f` of it. */
  function UpdateById(q: seq<Request>, id: RequestId, f: Request -> Request): (q': seq<Request>)
    ensures |q'| == |q|
    ensures forall i :: 0 <= i < |q| && q[i].id != id ==> q'[i] == q[i]
  {
    var k := IndexOf(q, id);
    if k < 0 then q else q[k := f(q[k])]
  }

  /** Extending the visited prefix by one record extends the sweep by its visit. */
  lemma SweepStep(s: seq<Request>, v: nat)
    requires v < |s|
    ensures Swept(s[..v + 1]) == Swept(s[..v]) + Visit(s[v])
    ensures Submitted(s[..v + 1]) == Submitted(s[..v]) +
              (if !s[v].disposalFlag && s[v].status == Unprocessed then [s[v].id] else [])
    ensures s[..v + 1] == s[..v] + [s[v]] && s[v..] == [s[v]] + s[v + 1..]
    ensures s[v..][0] == s[v] && s[v..][1..] == s[v + 1..]
  {
    assert s[..v + 1][..v] == s[..v];
  }

  /** What the sweep's loop body does to the queue `Swept(s[..v]) + s[v..]` at
      position `|Swept(s[..v])|`, in each of its three cases, yields the queue
      for the next prefix. */
  lemma SweepBody(s: seq<Request>, v: nat)
    requires v < |s|
    ensures var done, q := Swept(s[..v]), Swept(s[..v]) + s[v..];
            && q[|done|] == s[v]
            && (s[v].disposalFlag ==>
                  q[..|done|] + q[|done| + 1..] == Swept(s[..v + 1]) + s[v + 1..])
            && (!s[v].disposalFlag && s[v].status == Unprocessed ==>
                  q[|done| := s[v].(status := Processing)] == Swept(s[..v + 1]) + s[v + 1..])
            && (!s[v].disposalFlag && s[v].status != Unprocessed ==>
                  q == Swept(s[..v + 1]) + s[v + 1..])
  {
    SweepStep(s, v);
    var done, rest := Swept(s[..v]), s[v..];
    var q := done + rest;
    assert q[..|done|] == done;
    assert q[|done| + 1..] == rest[1..];
    if !s[v].disposalFlag && s[v].status == Unprocessed {
      assert q[|done| := s[v].(status := Processing)] == done + [s[v].(status := Processing)] + rest[1..];
    }
  }

  // ---------------------------------------------------------------------------
  // The broker object
  // ---------------------------------------------------------------------------

  class RequestBroker {
    /** `pending_asio_requests`: records in submission order. */
    var queue: seq<Request>
    /** Next id to hand out; stands in for allocating a fresh record. */
    var nextId: RequestId
    /** `active_instance_count`. */
    var activeInstanceCount: nat
    /** `retired_flag`. */
    var retiredFlag: RetireFlag
    /** Whether the dispatcher thread started by `initialization` is running. */
    var dispatcherAlive: bool

    ghost predicate Valid()
      reads this
    {
      QueueValid(queue, nextId) && LifecycleValid(State())
    }

    ghost function State(): Lifecycle
      reads this
    {
      Lifecycle(activeInstanceCount, retiredFlag, dispatcherAlive)
    }

    /** Whether a record with this id is still queued. */
    ghost predicate Holds(id: RequestId)
      reads this
    {
      IndexOf(queue, id) >= 0
    }

    /** The statics' initial values: empty queue, no live instance,
        `normal_operation` (source/T2/net/net.hpp:67-69). */
    constructor ()
      ensures Valid()
      ensures queue == [] && State() == InitialLifecycle
    {
      queue := [];
      nextId := 0;
      activeInstanceCount := 0;
      retiredFlag := NormalOperation;
      dispatcherAlive := false;
    }

    /** `initialization`: increment the counter and start a dispatcher thread
        (`startDispatcher`) when it was 0. It cannot proceed while a retiring
        destructor holds `count_lock`, that is while the flag is
        `retire_signal`. */
    method Initialization() returns (startDispatcher: bool)
      requires Valid() && retiredFlag != RetireSignal
      modifies this`activeInstanceCount, this`dispatcherAlive
      ensures Valid()
      ensures (State(), startDispatcher) == Initialized(old(State()))
    {
      startDispatcher := activeInstanceCount == 0;
      activeInstanceCount := activeInstanceCount + 1;
      if startDispatcher {
        dispatcherAlive := true;
      }
    }

    /** `retire`: raise the signal. The wait for the dispatcher's answer is the
        busy loop left out of the model; the answer is `DispatcherIteration`. */
    method Retire()
      modifies this`retiredFlag
      ensures retiredFlag == RetireSignal
    {
      retiredFlag := RetireSignal;
    }

    /** The counter part of `~client`: decrement, and retire when it reaches 0.
        Like `Initialization` it waits for `count_lock`. */
    method Release() returns (retired: bool)
      requires Valid() && retiredFlag != RetireSignal
      requires activeInstanceCount > 0
      modifies this`activeInstanceCount, this`retiredFlag
      ensures Valid()
      ensures (State(), retired) == Released(old(State()))
    {
      activeInstanceCount := activeInstanceCount - 1;
      retired := activeInstanceCount == 0;
      if retired {
        Retire();
      }
    }

    /** Push a new connect record (source/T2/net/client.cpp:55-65). */
    method SubmitConnect(socket: SocketId, endpoint: Endpoint) returns (id: RequestId)
      requires Valid()
      modifies this`queue, this`nextId
      ensures Valid() && Holds(id) && id == old(nextId)
      ensures queue == old(queue) + [NewConnectRequest(id, socket, endpoint)]
      ensures QueueProgress(old(queue), queue)
    {
      id := nextId;
      queue := queue + [NewConnectRequest(id, socket, endpoint)];
      nextId := nextId + 1;
      assert queue[|queue| - 1].id == id;
    }

    /** Push a new receive record (source/T2/net/client.cpp:169-181). */
    method SubmitReceive(socket: SocketId, bufferSize: nat) returns (id: RequestId)
      requires Valid()
      modifies this`queue, this`nextId
      ensures Valid() && Holds(id) && id == old(nextId)
      ensures queue == old(queue) + [NewReceiveRequest(id, socket, bufferSize)]
      ensures QueueProgress(old(queue), queue)
    {
      id := nextId;
      queue := queue + [NewReceiveRequest(id, socket, bufferSize)];
      nextId := nextId + 1;
      assert queue[|queue| - 1].id == id;
    }

    /** The submitter's `disposal_flag = true`. */
    method Dispose(id: RequestId)
      requires Valid()
      modifies this`queue
      ensures Valid()
      ensures queue == UpdateById(old(queue), id, (r: Request) => r.(disposalFlag := true))
      ensures QueueProgress(old(queue), queue)
    {
      var k := IndexOf(queue, id);
      if k >= 0 {
        queue := queue[k := queue[k].(disposalFlag := true)];
      }
    }

    /** The `async_connect` handler called for record `id`. The reactor calls
        it only for the connect record it was registered for, which the sweep
        had just moved to `processing`, and only once. A record already erased
        is not touched. */
    method CompleteConnect(id: RequestId, error: bool)
      requires Valid()
      requires Holds(id) ==> queue[IndexOf(queue, id)].Kind() == Connect
      requires Holds(id) ==> queue[IndexOf(queue, id)].status == Processing
      modifies this`queue
      ensures Valid()
      ensures queue == UpdateById(old(queue), id, (r: Request) => ConnectHandled(r, error))
      ensures QueueProgress(old(queue), queue)
    {
      var k := IndexOf(queue, id);
      if k >= 0 {
        queue := queue[k := ConnectHandled(queue[k], error)];
      }
    }

    /** The `async_receive` handler called for record `id`; the reactor calls it
        only for the receive record it was registered for, once, while that
        record is `processing`. */
    method CompleteReceive(id: RequestId, error: bool, bytesTransferred: nat)
      requires Valid()
      requires Holds(id) ==> queue[IndexOf(queue, id)].Kind() == ReceiveData
      requires Holds(id) ==> queue[IndexOf(queue, id)].status == Processing
      modifies this`queue
      ensures Valid()
      ensures QueueProgress(old(queue), queue)
      ensures var k := old(IndexOf(queue, id));
              queue == if k < 0 then old(queue)
                       else old(queue)[k := ReceiveHandled(old(queue)[k], error, bytesTransferred)]
    {
      var k := IndexOf(queue, id);
      if k >= 0 {
        queue := queue[k := ReceiveHandled(queue[k], error, bytesTransferred)];
      }
    }

    /** The body of `asio_loop`'s `for` loop over a non-empty snapshot
        (source/T2/net/client.cpp:243-336): erase disposed records with the
        erase-then-step-back adjustment, skip `success` records, and move
        `unprocessed` records to `processing`, handing their ids to the
        reactor. `visits` lists the records read at `object[index]`, in order:
        every record present at the start, each exactly once. */
    method Sweep() returns (submitted: seq<RequestId>, ghost visits: seq<Request>)
      requires Valid()
      modifies this`queue
      ensures Valid()
      ensures queue == Swept(old(queue))
      ensures submitted == Submitted(old(queue))
      ensures visits == old(queue)
      ensures QueueProgress(old(queue), queue)
    {
      ghost var start := queue;
      var count := |queue|;
      var index: int := 0;
      ghost var visited := 0;
      submitted := [];
      visits := [];
      while index < count
        invariant 0 <= visited <= |start|
        invariant 0 <= index <= count == |queue|
        invariant index == |Swept(start[..visited])|
        invariant queue == Swept(start[..visited]) + start[visited..]
        invariant submitted == Submitted(start[..visited])
        invariant visits == start[..visited]
        decreases count - index
      {
        SweepStep(start, visited);
        SweepBody(start, visited);
        var request := queue[index];
        visits := visits + [request];
        if request.disposalFlag {
          queue := queue[..index] + queue[index + 1..];
          index := index - 1;
          count := count - 1;
        } else if request.status == RequestStatus.Success {
        } else if request.status == Unprocessed {
          queue := queue[index := request.(status := Processing)];
          submitted := submitted + [request.id];
        }
        index := index + 1;
        visited := visited + 1;
      }
      assert start[..visited] == start;
      SweptKeepsQueueValid(start, nextId);
      SweptProgresses(start, nextId);
    }

    /** One iteration of `asio_loop`'s outer loop (source/T2/net/client.cpp:241-348):
        while the flag is `normal_operation`, sweep a non-empty queue (an empty
        one is left alone while the thread sleeps); otherwise leave the loop and
        answer `finished_retiring`, and the thread ends. Running the reactor
        afterwards is the environment calling `CompleteConnect` and
        `CompleteReceive`. Only a running dispatcher thread iterates. */
    method DispatcherIteration() returns (running: bool, submitted: seq<RequestId>)
      requires Valid() && dispatcherAlive
      modifies this`queue, this`retiredFlag, this`dispatcherAlive
      ensures Valid()
      ensures (State(), running) == Iterated(old(State()))
      ensures QueueProgress(old(queue), queue)
      ensures running ==> queue == Swept(old(queue)) && submitted == Submitted(old(queue))
      ensures !running ==> queue == old(queue) && submitted == []
    {
      if retiredFlag == NormalOperation {
        running := true;
        if |queue| == 0 {
          submitted := [];
        } else {
          ghost var visits;
          submitted, visits := Sweep();
        }
      } else {
        running := false;
        submitted := [];
        retiredFlag := FinishedRetiring;
        dispatcherAlive := false;
      }
    }
  }
}
