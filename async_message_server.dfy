/**
 * AsyncMessageServer: a Start/Stop state machine over a receiver manager, and
 * the pipeline that answers each incoming request task (extract the request,
 * dispatch it, wrap the response, hand it to the task's response handler).
 */
module Server {
  import opened Common

  /** A call the server makes on its receiver manager. */
  datatype ManagerCall = StartManager | StopManager

  /** The manager calls alternate, beginning with a start. */
  ghost predicate Alternating(calls: seq<ManagerCall>)
  {
    forall i :: 0 <= i < |calls| ==> calls[i] == if i % 2 == 0 then StartManager else StopManager
  }

  class AsyncMessageServer {
    const name: Option<string>
    var running: bool
    /** The server information's start-up time stamp; None is null. */
    var startUpTimeStamp: Option<int>
    /** The Start and Stop calls made on the receiver manager, in order. */
    var managerCalls: seq<ManagerCall>

    /**
     * The server has a time stamp exactly while it runs, and it runs exactly
     * when it has started its receiver manager once more than it has stopped it.
     */
    ghost predicate Valid()
      reads this
    {
      && (running <==> startUpTimeStamp.Some?)
      && Alternating(managerCalls)
      && (running <==> |managerCalls| % 2 == 1)
    }

    constructor (name: Option<string>)
      ensures Valid() && this.name == name
      ensures !running && startUpTimeStamp == None && managerCalls == []
    {
      this.name := name;
      running, startUpTimeStamp, managerCalls := false, None, [];
    }

    /** The constructor with its checks of the message factory, receiver manager and dispatcher, in that order. */
    static method Create(hasMessageFactory: bool, hasReceiverManager: bool, hasDispatcher: bool, name: Option<string>)
      returns (r: Result<AsyncMessageServer>)
      ensures r.Err? <==> !(hasMessageFactory && hasReceiverManager && hasDispatcher)
      ensures r.Err? ==> r.error == ArgumentNull
      ensures r.Ok? ==> fresh(r.value) && r.value.Valid() && r.value.name == name
                        && !r.value.running && r.value.startUpTimeStamp == None && r.value.managerCalls == []
    {
      var present := [hasMessageFactory, hasReceiverManager, hasDispatcher];
      assert present[0] == hasMessageFactory && present[1] == hasReceiverManager && present[2] == hasDispatcher;
      var e := NullCheck(present);
      if e.Some? {
        return Err(e.value);
      }
      var s := new AsyncMessageServer(name);
      return Ok(s);
    }

    /** Starts the server at time `now`; starting a running server fails and changes nothing. */
    method Start(now: int) returns (st: Status)
      requires Valid()
      modifies this
      ensures Valid()
      ensures old(running) ==> st == Threw(InvalidOperation) && unchanged(this)
      ensures !old(running) ==> st == Done && running && startUpTimeStamp == Some(now)
                                && managerCalls == old(managerCalls) + [StartManager]
    {
      if running {
        return Threw(InvalidOperation);
      }
      running := true;
      startUpTimeStamp := Some(now);
      managerCalls := managerCalls + [StartManager];
      return Done;
    }

    /** Stops the server; stopping a server that is not running fails and changes nothing. */
    method Stop() returns (st: Status)
      requires Valid()
      modifies this
      ensures Valid()
      ensures !old(running) ==> st == Threw(InvalidOperation) && unchanged(this)
      ensures old(running) ==> st == Done && !running && startUpTimeStamp == None
                               && managerCalls == old(managerCalls) + [StopManager]
    {
      if !running {
        return Threw(InvalidOperation);
      }
      running := false;
      startUpTimeStamp := None;
      managerCalls := managerCalls + [StopManager];
      return Done;
    }
  }

  /**
   * The work one incoming request task starts: extract the request object,
   * dispatch it, wrap the response and pass it to the task's response
   * handler. The result is the list of response-handler calls. A throwing
   * stage ends the background task, and a null response (None) fails when
   * its runtime type is looked up, so no response is sent then.
   */
  function HandleAndRespond<M>(request: M, extract: M -> Result<Obj>, handle: Obj -> Result<Option<Obj>>,
                               createResponse: Obj -> Result<M>): (calls: seq<M>)
    ensures |calls| <= 1
    ensures |calls| == 1 <==> extract(request).Ok? && handle(extract(request).value).Ok?
                              && handle(extract(request).value).value.Some?
                              && createResponse(handle(extract(request).value).value.value).Ok?
    ensures |calls| == 1 ==> calls[0] == createResponse(handle(extract(request).value).value.value).value
  {
    var requestObject := extract(request);
    if requestObject.Err? then []
    else
      var responseObject := handle(requestObject.value);
      if responseObject.Err? || responseObject.value.None? then []
      else
        var responseMessage := createResponse(responseObject.value.value);
        if responseMessage.Err? then [] else [responseMessage.value]
  }

  /** Starting twice fails the second time; the manager is started once. */
  method StartTwice(t0: int, t1: int) returns (first: Status, second: Status, stamp: Option<int>, calls: seq<ManagerCall>)
    ensures first == Done && second == Threw(InvalidOperation) && stamp == Some(t0) && calls == [StartManager]
  {
    var s := new AsyncMessageServer(Some("server"));
    first := s.Start(t0);
    second := s.Start(t1);
    stamp, calls := s.startUpTimeStamp, s.managerCalls;
  }

  /** Stopping a server that never started fails; a started one stops and can be started again. */
  method StopStartStop(t: int) returns (early: Status, later: Status, running: bool, calls: seq<ManagerCall>)
    ensures early == Threw(InvalidOperation) && later == Done && !running
    ensures calls == [StartManager, StopManager, StartManager, StopManager]
  {
    var s := new AsyncMessageServer(None);
    early := s.Stop();
    var _ := s.Start(t);
    var _ := s.Stop();
    var _ := s.Start(t + 1);
    later := s.Stop();
    running, calls := s.running, s.managerCalls;
  }
}
