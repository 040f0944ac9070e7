/**
 * The message router's SubscriptionEventDispatcher, as its unit tests
 * describe it: one handler per exact topic type. Handling never throws; an
 * event nobody subscribed to, and a null event, are dropped.
 */
module Subscriptions {
  import opened Common

  /** A handler registered as an ISubscriptionHandler object or as a delegate. */
  datatype SubscriptionHandler = HandlerObject(id: nat) | HandlerDelegate(id: nat)

  /** One call of a handler with an event. */
  datatype HandlerCall = HandlerCall(handler: SubscriptionHandler, event: Obj)

  class SubscriptionEventDispatcher {
    var handlers: map<TypeTag, SubscriptionHandler>

    constructor ()
      ensures handlers == map[]
    {
      handlers := map[];
    }

    /** The fluent factory: a dispatcher without handlers. */
    static method Create() returns (d: SubscriptionEventDispatcher)
      ensures fresh(d) && d.handlers == map[]
    {
      d := new SubscriptionEventDispatcher();
    }

    /**
     * The handler calls one event leads to: one call of the handler
     * registered for the event's exact runtime type, and none for a null event
     * or a type without a handler. A handler for a base type is not a handler
     * for its subtypes.
     */
    function Handle(event: Option<Obj>): (calls: seq<HandlerCall>)
      reads this
      ensures |calls| <= 1
      ensures |calls| == 1 <==> event.Some? && event.value.runtimeType in handlers
      ensures |calls| == 1 ==> calls[0] == HandlerCall(handlers[event.value.runtimeType], event.value)
    {
      if event.None? || event.value.runtimeType !in handlers then []
      else [HandlerCall(handlers[event.value.runtimeType], event.value)]
    }

    /**
     * Registers a handler for a topic type; a second handler for the same
     * type is refused as a duplicate dictionary key. After a registration,
     * events of that type go to the new handler and every other type is
     * handled as before.
     */
    method Register(topicType: TypeTag, handler: SubscriptionHandler) returns (st: Status)
      modifies this
      ensures st == (if topicType in old(handlers) then Threw(Argument) else Done)
      ensures handlers == if st == Done then old(handlers)[topicType := handler] else old(handlers)
      ensures st == Done ==> forall e: Obj {:trigger Handle(Some(e))} ::
                Handle(Some(e)) == if e.runtimeType == topicType then [HandlerCall(handler, e)] else old(Handle(Some(e)))
    {
      if topicType in handlers {
        return Threw(Argument);
      }
      handlers := handlers[topicType := handler];
      return Done;
    }
  }

  /** Null events and events without a handler are dropped, without an error. */
  method HandleWithoutHandlers(e: Obj) returns (onNull: seq<HandlerCall>, onEvent: seq<HandlerCall>)
    ensures onNull == [] && onEvent == []
  {
    var d := SubscriptionEventDispatcher.Create();
    onNull := d.Handle(None);
    onEvent := d.Handle(Some(e));
  }

  /** A registered handler, object or delegate, is called exactly once with the event. */
  method RegisteredHandlerCalledOnce(topic: TypeTag, e: Obj, h: SubscriptionHandler) returns (calls: seq<HandlerCall>)
    requires e.runtimeType == topic
    ensures calls == [HandlerCall(h, e)]
  {
    var d := SubscriptionEventDispatcher.Create();
    var _ := d.Register(topic, h);
    calls := d.Handle(Some(e));
  }

  /** A handler for a base topic type is never called for an instance of a subtype: dispatch is by exact type. */
  method BaseHandlerIgnoresSubtype(topic: TypeTag, subEvent: Obj, h: SubscriptionHandler) returns (calls: seq<HandlerCall>)
    requires subEvent.runtimeType != topic
    ensures calls == []
  {
    var d := SubscriptionEventDispatcher.Create();
    var _ := d.Register(topic, h);
    calls := d.Handle(Some(subEvent));
  }
}
