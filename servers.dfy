/**
 * The listener of source/T2/net/server.cpp: the `actively_listening` flag with
 * its misuse errors, the `cleaned_up` flag the accept loop raises when it
 * exits, and `call_handlers`, which runs the connection handlers on one
 * accepted client.
 */
module Servers {
  import opened Wrappers
  import opened Requests

  /** The `runtime_error`s the server raises, and the one it lets through. */
  datatype ServerError =
    | AlreadyListening  // start_listening while listening
    | NotListening      // stop_listening while not listening
    | ListenerThrew     // a handler threw and catch_listeners is false
    | ForeignException  // a handler threw something other than a runtime_error

  /** What one call of a user handler does. */
  datatype HandlerResult = Returned | ThrewRuntimeError | ThrewOther

  /** Identity of a user handler (`std::function<void(client*)>`). */
  type HandlerId = nat

  /** Whether `call_handlers` goes on to the next handler after this one. A
      `runtime_error` is caught and swallowed only with `catch_listeners`;
      any other exception is not caught at all. */
  predicate Continues(h: HandlerResult, catchListeners: bool) {
    h == Returned || (h == ThrewRuntimeError && catchListeners)
  }

  /** The position of the first handler after which `call_handlers` stops,
      or the number of handlers when it runs them all. */
  function FirstStop(handlers: seq<HandlerResult>, catchListeners: bool): (k: nat)
    ensures k <= |handlers|
    ensures forall i :: 0 <= i < k ==> Continues(handlers[i], catchListeners)
    ensures k < |handlers| ==> !Continues(handlers[k], catchListeners)
    decreases |handlers|
  {
    if handlers == [] then 0
    else if !Continues(handlers[0], catchListeners) then 0
    else 1 + FirstStop(handlers[1..], catchListeners)
  }

  /** With `catch_listeners` and handlers that throw nothing but
      `runtime_error`s, every handler runs. */
  lemma CatchingRunsEveryHandler(handlers: seq<HandlerResult>)
    requires forall i :: 0 <= i < |handlers| ==> handlers[i] != ThrewOther
    ensures FirstStop(handlers, true) == |handlers|
  {
  }

  /** Without `catch_listeners`, iteration stops at the first handler that
      throws. */
  lemma NotCatchingStopsAtFirstThrow(handlers: seq<HandlerResult>, k: nat)
    requires k < |handlers| && handlers[k] != Returned
    requires forall i :: 0 <= i < k ==> handlers[i] == Returned
    ensures FirstStop(handlers, false) == k
  {
  }

  /** `call_handlers` (source/T2/net/server.cpp:12-33): call the handlers in
      order on the accepted client. `handlers[i]` is what the i-th handler
      does when called; `invoked` lists the handlers called, in order, and
      `deletions` counts how often the client is deleted. */
  method CallHandlers(handlers: seq<HandlerResult>, catchListeners: bool)
    returns (invoked: seq<int>, deletions: nat, o: Outcome<ServerError>)
    ensures var k := FirstStop(handlers, catchListeners);
            invoked == seq(if k < |handlers| then k + 1 else k, i => i)
    ensures var k := FirstStop(handlers, catchListeners);
            && (k == |handlers| ==> o == Pass && deletions == 1)
            && (k < |handlers| && handlers[k] == ThrewRuntimeError ==>
                  o == Fail(ListenerThrew) && deletions == 1)
            && (k < |handlers| && handlers[k] == ThrewOther ==>
                  o == Fail(ForeignException) && deletions == 0)
  {
    invoked := [];
    deletions := 0;
    var i := 0;
    while i < |handlers|
      invariant 0 <= i <= |handlers|
      invariant invoked == seq(i, j => j)
      invariant forall j :: 0 <= j < i ==> Continues(handlers[j], catchListeners)
      invariant deletions == 0
    {
      invoked := invoked + [i];
      match handlers[i] {
        case Returned =>
        case ThrewRuntimeError =>
          if !catchListeners {
            deletions := deletions + 1;
            return invoked, deletions, Fail(ListenerThrew);
          }
        case ThrewOther =>
          return invoked, deletions, Fail(ForeignException);
      }
      i := i + 1;
    }
    deletions := deletions + 1;
    o := Pass;
  }

  class Server {
    /** `port`. */
    const port: Port
    /** `actively_listening`. */
    var activelyListening: bool
    /** `cleaned_up`: the accept loop has returned. */
    var cleanedUp: bool
    /** The arguments handed to the newest accept-loop thread. */
    var connectionHandlers: seq<HandlerId>
    var catchListeners: bool
    /** How many `listen_loop` threads `start_listening` has started that have
        not yet left their loop. */
    var listenLoops: nat

    /** `server(port)` (source/T2/net/server.cpp:10). */
    constructor (port: Port)
      ensures this.port == port && !activelyListening && !cleanedUp && listenLoops == 0
    {
      this.port := port;
      activelyListening := false;
      cleanedUp := false;
      connectionHandlers := [];
      catchListeners := false;
      listenLoops := 0;
    }

    /** `start_listening(vector, catch_listeners)` (source/T2/net/server.cpp:78-89):
        refuse while listening; otherwise raise the flag and start an accept-loop
        thread with the handlers. `cleaned_up` is not lowered again. */
    method StartListening(handlers: seq<HandlerId>, catchListeners: bool) returns (o: Outcome<ServerError>)
      modifies this`activelyListening, this`connectionHandlers, this`catchListeners, this`listenLoops
      ensures activelyListening
      ensures listenLoops == if o.Pass? then old(listenLoops) + 1 else old(listenLoops)
      ensures o == if old(activelyListening) then Fail(AlreadyListening) else Pass
      ensures o.Fail? ==> connectionHandlers == old(connectionHandlers) && this.catchListeners == old(this.catchListeners)
      ensures o.Pass? ==> connectionHandlers == handlers && this.catchListeners == catchListeners
    {
      if activelyListening {
        return Fail(AlreadyListening);
      }
      activelyListening := true;
      connectionHandlers := handlers;
      this.catchListeners := catchListeners;
      listenLoops := listenLoops + 1;
      o := Pass;
    }

    /** `start_listening(handler, catch_listeners)` (source/T2/net/server.cpp:70-76):
        the vector overload with a one-element vector. */
    method StartListeningWith(handler: HandlerId, catchListeners: bool) returns (o: Outcome<ServerError>)
      modifies this`activelyListening, this`connectionHandlers, this`catchListeners, this`listenLoops
      ensures activelyListening
      ensures listenLoops == if o.Pass? then old(listenLoops) + 1 else old(listenLoops)
      ensures o == if old(activelyListening) then Fail(AlreadyListening) else Pass
      ensures o.Fail? ==> connectionHandlers == old(connectionHandlers) && this.catchListeners == old(this.catchListeners)
      ensures o.Pass? ==> connectionHandlers == [handler] && this.catchListeners == catchListeners
    {
      o := StartListening([handler], catchListeners);
    }

    /** `stop_listening` (source/T2/net/server.cpp:91-97): refuse unless
        listening; always ends with the flag down. */
    method StopListening() returns (o: Outcome<ServerError>)
      modifies this`activelyListening
      ensures !activelyListening
      ensures o == if old(activelyListening) then Pass else Fail(NotListening)
    {
      if !activelyListening {
        return Fail(NotListening);
      }
      activelyListening := false;
      o := Pass;
    }

    /** One test of a running `listen_loop`'s `while` (source/T2/net/server.cpp:47,
        67): the loop goes on while the flag is up; when it leaves it raises
        `cleaned_up` and its thread ends. The accept and the dispatch in the
        body are left out. This is the only writer of `cleaned_up`. */
    method ListenLoopIteration() returns (running: bool)
      requires listenLoops > 0
      modifies this`cleanedUp, this`listenLoops
      ensures running == activelyListening
      ensures cleanedUp == (old(cleanedUp) || !running)
      ensures listenLoops == if running then old(listenLoops) else old(listenLoops) - 1
    {
      running := activelyListening;
      if !running {
        cleanedUp := true;
        listenLoops := listenLoops - 1;
      }
    }

    /** `~server` (source/T2/net/server.cpp:99-105): stop listening first if
        still listening; `mustWait` says whether it then waits for
        `cleaned_up`. With no accept loop left to raise it the wait never
        ends; with `cleaned_up` already up it does not wait, whatever loops
        still run. */
    method Destroy() returns (mustWait: bool)
      modifies this`activelyListening
      ensures !activelyListening
      ensures mustWait == !cleanedUp
      ensures listenLoops == old(listenLoops) && cleanedUp == old(cleanedUp)
    {
      if activelyListening {
        var _ := StopListening();
      }
      mustWait := !cleanedUp;
    }
  }

  /** The "Listen and stop listening" case of tests/tests.cpp:33-41: both calls
      succeed, and the accept loop then leaves and cleans up. */
  method ListenAndStop(port: Port) returns (started: Outcome<ServerError>, stopped: Outcome<ServerError>, cleanedUp: bool)
    ensures started == Pass && stopped == Pass && cleanedUp
  {
    var server := new Server(port);
    started := server.StartListeningWith(0, true);
    stopped := server.StopListening();
    var running := server.ListenLoopIteration();
    cleanedUp := server.cleanedUp;
  }

  /** A server destroyed without ever listening waits for `cleaned_up`, and
      no accept loop exists that could raise it: `~server` never returns. */
  method DestroyNeverListened(port: Port) returns (mustWait: bool, loops: nat)
    ensures mustWait && loops == 0
  {
    var server := new Server(port);
    mustWait := server.Destroy();
    loops := server.listenLoops;
  }

  /** Start, stop, the first loop's exit, then a second start: `cleaned_up` is
      already up, so `~server` does not wait although the second accept loop
      still runs on the destroyed object. */
  method RestartNotAwaited(port: Port) returns (mustWait: bool, loops: nat)
    ensures !mustWait && loops == 1
  {
    var server := new Server(port);
    var started := server.StartListeningWith(0, true);
    var stopped := server.StopListening();
    var running := server.ListenLoopIteration();
    var restarted := server.StartListeningWith(0, true);
    mustWait := server.Destroy();
    loops := server.listenLoops;
  }
}
