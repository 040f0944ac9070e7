/**
 * Pigeon's RequestDispatcher: one handler per exact request type, registered
 * after checking that the request and response types are serializable, and
 * resolved by the runtime type of the incoming request.
 */
module Requests {
  import opened Common

  /** The three handler shapes a registration can wrap. */
  datatype RequestHandler =
    | HandlerObject(id: nat)          // an IRequestHandler instance
    | HandlerDelegate(id: nat)        // a synchronous delegate
    | AsyncHandlerDelegate(id: nat)   // a delegate that returns a task

  /** A registered handler and the response type it was registered with. */
  datatype Registration = Registration(handler: RequestHandler, responseType: TypeTag)

  /** The handler call a dispatch starts; its task is outside the model. */
  datatype Invocation = Invocation(handler: RequestHandler, request: Obj)

  /** The serializability checks made before a registration: the request type first, then the response type. */
  function ValidateTypes(requestType: TypeTag, responseType: TypeTag): (r: Option<Exception>)
    ensures r.None? <==> requestType.serializable && responseType.serializable
    ensures !requestType.serializable ==> r == Some(UnserializableType(requestType))
    ensures requestType.serializable && !responseType.serializable ==> r == Some(UnserializableType(responseType))
  {
    if !requestType.serializable then Some(UnserializableType(requestType))
    else if !responseType.serializable then Some(UnserializableType(responseType))
    else None
  }

  class RequestDispatcher {
    var requestHandlers: map<TypeTag, Registration>

    constructor ()
      ensures requestHandlers == map[]
    {
      requestHandlers := map[];
    }

    /** The fluent factory: an empty dispatcher. */
    static method Create() returns (d: RequestDispatcher)
      ensures fresh(d) && d.requestHandlers == map[]
    {
      d := new RequestDispatcher();
    }

    /**
     * Resolves the handler for the exact runtime type of the request; a null
     * request and a type without a handler are errors.
     */
    function Handle(request: Option<Obj>): (r: Result<Invocation>)
      reads this
      ensures request.None? ==> r == Err(ArgumentNull)
      ensures request.Some? && request.value.runtimeType !in requestHandlers ==>
                r == Err(RequestHandlerNotFound(request.value.runtimeType))
      ensures r.Ok? <==> request.Some? && request.value.runtimeType in requestHandlers
      ensures r.Ok? ==> r.value.request == request.value
                        && r.value.handler == requestHandlers[request.value.runtimeType].handler
    {
      if request.None? then Err(ArgumentNull)
      else if request.value.runtimeType !in requestHandlers then Err(RequestHandlerNotFound(request.value.runtimeType))
      else Ok(Invocation(requestHandlers[request.value.runtimeType].handler, request.value))
    }

    /**
     * The registration step the three Register forms share: validation, then a
     * dictionary Add, which throws on a request type that already has a handler.
     */
    method Install(requestType: TypeTag, responseType: TypeTag, handler: RequestHandler) returns (st: Status)
      modifies this
      ensures ValidateTypes(requestType, responseType).Some? ==> st == Threw(ValidateTypes(requestType, responseType).value)
      ensures ValidateTypes(requestType, responseType).None? && requestType in old(requestHandlers) ==> st == Threw(Argument)
      ensures st == Done <==> ValidateTypes(requestType, responseType).None? && requestType !in old(requestHandlers)
      ensures requestHandlers == if st == Done then old(requestHandlers)[requestType := Registration(handler, responseType)]
                                 else old(requestHandlers)
      // what Handle resolves afterwards: the new handler for its type, the old answer for every other type
      ensures st == Done ==> forall o: Obj {:trigger Handle(Some(o))} ::
                Handle(Some(o)) == if o.runtimeType == requestType then Ok(Invocation(handler, o)) else old(Handle(Some(o)))
    {
      var invalid := ValidateTypes(requestType, responseType);
      if invalid.Some? {
        return Threw(invalid.value);
      }
      if requestType in requestHandlers {
        return Threw(Argument);
      }
      requestHandlers := requestHandlers[requestType := Registration(handler, responseType)];
      return Done;
    }

    /** Registers a handler object. */
    method Register(requestType: TypeTag, responseType: TypeTag, handlerId: nat) returns (st: Status)
      modifies this
      ensures st == Done <==> ValidateTypes(requestType, responseType).None? && requestType !in old(requestHandlers)
      ensures st.Threw? ==> requestHandlers == old(requestHandlers)
                            && st.error == if ValidateTypes(requestType, responseType).Some?
                                           then ValidateTypes(requestType, responseType).value else Argument
      ensures st == Done ==> requestHandlers == old(requestHandlers)[requestType := Registration(HandlerObject(handlerId), responseType)]
    {
      st := Install(requestType, responseType, HandlerObject(handlerId));
    }

    /** Registers a synchronous handler delegate. */
    method RegisterDelegate(requestType: TypeTag, responseType: TypeTag, handlerId: nat) returns (st: Status)
      modifies this
      ensures st == Done <==> ValidateTypes(requestType, responseType).None? && requestType !in old(requestHandlers)
      ensures st.Threw? ==> requestHandlers == old(requestHandlers)
                            && st.error == if ValidateTypes(requestType, responseType).Some?
                                           then ValidateTypes(requestType, responseType).value else Argument
      ensures st == Done ==> requestHandlers == old(requestHandlers)[requestType := Registration(HandlerDelegate(handlerId), responseType)]
    {
      st := Install(requestType, responseType, HandlerDelegate(handlerId));
    }

    /** Registers an asynchronous handler delegate. */
    method RegisterAsync(requestType: TypeTag, responseType: TypeTag, handlerId: nat) returns (st: Status)
      modifies this
      ensures st == Done <==> ValidateTypes(requestType, responseType).None? && requestType !in old(requestHandlers)
      ensures st.Threw? ==> requestHandlers == old(requestHandlers)
                            && st.error == if ValidateTypes(requestType, responseType).Some?
                                           then ValidateTypes(requestType, responseType).value else Argument
      ensures st == Done ==> requestHandlers == old(requestHandlers)[requestType := Registration(AsyncHandlerDelegate(handlerId), responseType)]
    {
      st := Install(requestType, responseType, AsyncHandlerDelegate(handlerId));
    }
  }

  /** A registered handler receives the requests of its type; a request of another type has no handler. */
  method RegisterThenHandle(req: TypeTag, resp: TypeTag, other: Obj, request: Obj)
    returns (registered: Status, handled: Result<Invocation>, unhandled: Result<Invocation>)
    requires req.serializable && resp.serializable
    requires request.runtimeType == req && other.runtimeType != req
    ensures registered == Done
    ensures handled == Ok(Invocation(HandlerDelegate(7), request))
    ensures unhandled == Err(RequestHandlerNotFound(other.runtimeType))
  {
    var d := RequestDispatcher.Create();
    registered := d.RegisterDelegate(req, resp, 7);
    handled := d.Handle(Some(request));
    unhandled := d.Handle(Some(other));
  }

  /** A second handler for a request type is refused, whatever its shape, and the first one stays. */
  method RegisterTwiceRefused(req: TypeTag, resp: TypeTag, request: Obj)
    returns (second: Status, handled: Result<Invocation>)
    requires req.serializable && resp.serializable && request.runtimeType == req
    ensures second == Threw(Argument) && handled == Ok(Invocation(HandlerObject(1), request))
  {
    var d := RequestDispatcher.Create();
    var _ := d.Register(req, resp, 1);
    second := d.RegisterAsync(req, resp, 2);
    handled := d.Handle(Some(request));
  }

  /** A response type without the serializable marker is refused and registers nothing. */
  method UnserializableResponseRefused(req: TypeTag, resp: TypeTag) returns (st: Status, count: nat)
    requires req.serializable && !resp.serializable
    ensures st == Threw(UnserializableType(resp)) && count == 0
  {
    var d := RequestDispatcher.Create();
    st := d.Register(req, resp, 1);
    count := |d.requestHandlers|;
  }
}
