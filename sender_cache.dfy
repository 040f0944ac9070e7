/**
 * SenderCache: resolves the sender for a request type through the request
 * router, creating one lazily per routing with the factory registered for the
 * routing's sender kind, and dispatching requests through it.
 */
module Senders {
  import opened Common

  /** A transport kind (the sender type) and an address: the key of the sender cache. */
  datatype SenderRouting = SenderRouting(senderType: TypeTag, address: Address)

  /** A sender factory: its identity and the monitor that maintains the senders it makes. */
  datatype SenderFactory = SenderFactory(id: nat, monitor: MonitorId)

  /** The sender the given factory created for an address. */
  datatype Sender = Sender(factory: nat, address: Address)

  /** The request envelope the message factory wraps a request in. */
  datatype RequestMessage = RequestMessage(request: Obj)

  /** A SendAndReceive call on a sender: what is sent and how long the caller waits for the reply. */
  datatype Dispatch = Dispatch(sender: Sender, message: RequestMessage, timeoutMs: int)

  /** The timeout used when a request is sent without one: one hour. */
  const DefaultTimeoutMs: int := 60 * 60 * 1000

  class SenderCache {
    /** The request router: the routing configured for each request type. */
    const routes: map<TypeTag, SenderRouting>
    var senderCache: map<SenderRouting, Sender>
    /** Registered factories by sender kind; None is a null factory, which AddFactory does not reject. */
    var senderFactories: map<TypeTag, Option<SenderFactory>>
    /** The AddMonitor calls made on the shared monitor cache. */
    var monitorsAdded: seq<MonitorId>
    /** The CreateSender calls made on factories: which factory, for which address. */
    var created: seq<Sender>

    /** Every cached sender was made by a factory registered for its routing's kind, for the routing's address. */
    ghost predicate Valid()
      reads this
    {
      forall r :: r in senderCache ==>
        r.senderType in senderFactories && senderFactories[r.senderType].Some?
        && senderCache[r] == Sender(senderFactories[r.senderType].value.id, r.address)
    }

    constructor (routes: map<TypeTag, SenderRouting>)
      ensures Valid() && this.routes == routes
      ensures senderCache == map[] && senderFactories == map[] && monitorsAdded == [] && created == []
    {
      this.routes := routes;
      senderCache, senderFactories, monitorsAdded, created := map[], map[], [], [];
    }

    /**
     * What resolving the sender for `requestType` does, between the state
     * before and after: no routing gives KeyNotFound; a cached routing gives
     * its sender; otherwise the factory registered for the routing's kind
     * (KeyNotFound when there is none, NullReference when it is null) creates
     * a sender for the routing's address, which is cached, and its monitor is
     * added. Nothing is created or cached in the other cases.
     */
    twostate predicate Resolved(requestType: TypeTag, new r: Result<Sender>)
      reads this
    {
      && senderFactories == old(senderFactories)
      && (requestType !in routes ==> r == Err(KeyNotFound))
      && (requestType in routes ==>
            var routing := routes[requestType];
            if routing in old(senderCache) then r == Ok(old(senderCache)[routing])
            else if routing.senderType !in senderFactories then r == Err(KeyNotFound)
            else if senderFactories[routing.senderType].None? then r == Err(NullReference)
            else
              var f := senderFactories[routing.senderType].value;
              && r == Ok(Sender(f.id, routing.address))
              && senderCache == old(senderCache)[routing := r.value]
              && created == old(created) + [r.value]
              && monitorsAdded == old(monitorsAdded) + [f.monitor])
      && (!(requestType in routes && routes[requestType] !in old(senderCache) && r.Ok?) ==>
            senderCache == old(senderCache) && created == old(created) && monitorsAdded == old(monitorsAdded))
      && (r.Ok? ==> routes[requestType] in senderCache && senderCache[routes[requestType]] == r.value)
    }

    /** The sender for a request type, resolved as `Resolved` describes. */
    method SenderFor(requestType: TypeTag) returns (r: Result<Sender>)
      requires Valid()
      modifies this
      ensures Valid() && Resolved(requestType, r)
    {
      if requestType !in routes {
        return Err(KeyNotFound);
      }
      var routing := routes[requestType];
      if routing in senderCache {
        return Ok(senderCache[routing]);
      }
      if routing.senderType !in senderFactories {
        return Err(KeyNotFound);
      }
      var factory := senderFactories[routing.senderType];
      if factory.None? {
        return Err(NullReference);
      }
      var sender := Sender(factory.value.id, routing.address);
      created := created + [sender];
      senderCache := senderCache[routing := sender];
      monitorsAdded := monitorsAdded + [factory.value.monitor];
      return Ok(sender);
    }

    method AddFactory(senderType: TypeTag, factory: Option<SenderFactory>) returns (st: Status)
      requires Valid()
      modifies this`senderFactories
      ensures Valid()
      ensures senderType in old(senderFactories) ==> st == Threw(InvalidOperation) && senderFactories == old(senderFactories)
      ensures senderType !in old(senderFactories) ==> st == Done && senderFactories == old(senderFactories)[senderType := factory]
    {
      if senderType in senderFactories {
        return Threw(InvalidOperation);
      }
      senderFactories := senderFactories[senderType := factory];
      return Done;
    }

    /**
     * Validates the request, resolves the sender for the static request type
     * `requestType` and wraps the request; the reply is awaited outside the
     * model. A null request changes nothing; otherwise the resolution's
     * outcome and effects carry through, and a resolved sender is sent the
     * wrapped request with the given timeout.
     */
    method Send(requestType: TypeTag, request: Option<Obj>, timeoutMs: int) returns (r: Result<Dispatch>)
      requires Valid()
      modifies this
      ensures Valid()
      ensures request.None? ==> r == Err(ArgumentNull) && unchanged(this)
      ensures request.Some? ==> Resolved(requestType, SenderOf(r))
      ensures r.Ok? ==> request.Some? && r.value == Dispatch(r.value.sender, RequestMessage(request.value), timeoutMs)
    {
      if request.None? {
        return Err(ArgumentNull);
      }
      var sender := SenderFor(requestType);
      if sender.Err? {
        return Err(sender.error);
      }
      return Ok(Dispatch(sender.value, RequestMessage(request.value), timeoutMs));
    }

    /** Send with the default timeout of one hour. */
    method SendWithDefaultTimeout(requestType: TypeTag, request: Option<Obj>) returns (r: Result<Dispatch>)
      requires Valid()
      modifies this
      ensures Valid()
      ensures request.None? ==> r == Err(ArgumentNull) && unchanged(this)
      ensures request.Some? ==> Resolved(requestType, SenderOf(r))
      ensures r.Ok? ==> request.Some? && r.value == Dispatch(r.value.sender, RequestMessage(request.value), DefaultTimeoutMs)
    {
      r := Send(requestType, request, DefaultTimeoutMs);
    }
  }

  /** The sender a send went to, or the error it failed with. */
  function SenderOf(r: Result<Dispatch>): (s: Result<Sender>)
    ensures s.Ok? <==> r.Ok?
    ensures r.Ok? ==> s.value == r.value.sender
    ensures r.Err? ==> s.error == r.error
  {
    match r
    case Ok(d) => Ok(d.sender)
    case Err(e) => Err(e)
  }

  /** Sending through a routed, registered factory creates one sender for the routing's address and dispatches to it. */
  method SendCreatesSender(t: TypeTag, routing: SenderRouting, f: SenderFactory, request: Obj)
    returns (r: Result<Dispatch>, created: seq<Sender>, monitors: seq<MonitorId>)
    ensures r == Ok(Dispatch(Sender(f.id, routing.address), RequestMessage(request), DefaultTimeoutMs))
    ensures created == [Sender(f.id, routing.address)] && monitors == [f.monitor]
  {
    var cache := new SenderCache(map[t := routing]);
    var _ := cache.AddFactory(routing.senderType, Some(f));
    r := cache.SendWithDefaultTimeout(t, Some(request));
    created, monitors := cache.created, cache.monitorsAdded;
  }

  /** A null factory registered for the routing's kind makes the send fail with NullReference. */
  method NullFactoryFails(t: TypeTag, routing: SenderRouting, request: Obj) returns (r: Result<Dispatch>, cached: nat)
    ensures r == Err(NullReference) && cached == 0
  {
    var cache := new SenderCache(map[t := routing]);
    var _ := cache.AddFactory(routing.senderType, None);
    r := cache.Send(t, Some(request), 10);
    cached := |cache.senderCache|;
  }

  /** Two request types with the same routing share one sender, created once. */
  method SameRoutingSameSender(t1: TypeTag, t2: TypeTag, routing: SenderRouting, f: SenderFactory)
    returns (s1: Result<Sender>, s2: Result<Sender>, creations: nat)
    ensures s1.Ok? && s1 == s2 && creations == 1
  {
    var cache := new SenderCache(map[t1 := routing, t2 := routing]);
    var _ := cache.AddFactory(routing.senderType, Some(f));
    s1 := cache.SenderFor(t1);
    s2 := cache.SenderFor(t2);
    creations := |cache.created|;
  }

  /** A request type without a routing fails with KeyNotFound, never with a default sender. */
  method NoRoutingFails(t: TypeTag, request: Obj) returns (r: Result<Dispatch>, cached: nat)
    ensures r == Err(KeyNotFound) && cached == 0
  {
    var cache := new SenderCache(map[]);
    r := cache.Send(t, Some(request), 10);
    cached := |cache.senderCache|;
  }
}
