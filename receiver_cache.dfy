/**
 * The message router's ReceiverCache, as its unit tests describe it: receiver
 * factories keyed by the receiver kind they make, each registered once along
 * with its monitor, and receivers keyed by the address they listen on.
 */
module Receivers {
  import opened Common

  /** A receiver factory: its identity, the receiver kind it makes and the monitor of its receivers. */
  datatype ReceiverFactory = ReceiverFactory(id: nat, kind: TypeTag, monitor: MonitorId)

  /** The receiver a factory created for an address. */
  datatype Receiver = Receiver(factory: nat, address: Address)

  class ReceiverCache {
    var factories: map<TypeTag, ReceiverFactory>
    var receivers: map<Address, Receiver>
    /** The AddMonitor calls made on the monitor cache. */
    var monitorsAdded: seq<MonitorId>
    /** The CreateReceiver calls made on factories: which factory, for which address. */
    var created: seq<Receiver>

    /** Factories are filed under their kind; receivers under their address, each one created once. */
    ghost predicate Valid()
      reads this
    {
      && (forall k :: k in factories ==> factories[k].kind == k)
      && (forall a :: a in receivers ==> receivers[a].address == a)
      && (forall a :: a in receivers ==> receivers[a] in created)
      && |created| == |receivers|
    }

    constructor ()
      ensures Valid()
      ensures factories == map[] && receivers == map[] && monitorsAdded == [] && created == []
    {
      factories, receivers, monitorsAdded, created := map[], map[], [], [];
    }

    /** The constructor with its checks of the monitor cache, message factory and request dispatcher. */
    static method Create(hasMonitorCache: bool, hasMessageFactory: bool, hasDispatcher: bool) returns (r: Result<ReceiverCache>)
      ensures r.Err? <==> !(hasMonitorCache && hasMessageFactory && hasDispatcher)
      ensures r.Err? ==> r.error == ArgumentNull
      ensures r.Ok? ==> fresh(r.value) && r.value.Valid() && r.value.factories == map[] && r.value.receivers == map[]
                        && r.value.monitorsAdded == [] && r.value.created == []
    {
      var present := [hasMonitorCache, hasMessageFactory, hasDispatcher];
      assert present[0] == hasMonitorCache && present[1] == hasMessageFactory && present[2] == hasDispatcher;
      var e := NullCheck(present);
      if e.Some? {
        return Err(e.value);
      }
      var c := new ReceiverCache();
      return Ok(c);
    }

    /** Registers a factory for its kind and its monitor with the monitor cache; a second factory of a kind is ignored. */
    method AddFactory(factory: Option<ReceiverFactory>) returns (st: Status)
      requires Valid()
      modifies this
      ensures Valid() && receivers == old(receivers) && created == old(created)
      ensures factory.None? ==> st == Threw(ArgumentNull)
      ensures factory.Some? ==> st == Done
      ensures if factory.Some? && factory.value.kind !in old(factories)
              then factories == old(factories)[factory.value.kind := factory.value]
                   && monitorsAdded == old(monitorsAdded) + [factory.value.monitor]
              else factories == old(factories) && monitorsAdded == old(monitorsAdded)
    {
      if factory.None? {
        return Threw(ArgumentNull);
      }
      var f := factory.value;
      if f.kind in factories {
        return Done;
      }
      factories := factories[f.kind := f];
      monitorsAdded := monitorsAdded + [f.monitor];
      return Done;
    }

    /**
     * Creates a receiver of kind `receiverType` for the address: refused for
     * a null address, for an address that already has a receiver, and for a
     * kind without a factory.
     */
    method AddReceiver(receiverType: TypeTag, address: Option<Address>) returns (st: Status)
      requires Valid()
      modifies this`receivers, this`created
      ensures Valid()
      ensures address.None? ==> st == Threw(ArgumentNull)
      ensures address.Some? && address.value in old(receivers) ==> st == Threw(InvalidOperation)
      ensures address.Some? && address.value !in old(receivers) && receiverType !in factories ==> st == Threw(KeyNotFound)
      ensures st == Done <==> address.Some? && address.value !in old(receivers) && receiverType in factories
      ensures if st == Done
              then var r := Receiver(factories[receiverType].id, address.value);
                   receivers == old(receivers)[address.value := r] && created == old(created) + [r]
              else receivers == old(receivers) && created == old(created)
    {
      if address.None? {
        return Threw(ArgumentNull);
      }
      var a := address.value;
      if a in receivers {
        return Threw(InvalidOperation);
      }
      if receiverType !in factories {
        return Threw(KeyNotFound);
      }
      var r := Receiver(factories[receiverType].id, a);
      receivers := receivers[a := r];
      created := created + [r];
      return Done;
    }
  }

  /** Adding a factory twice keeps one factory and adds its monitor once. */
  method FactoryAddedOnce(f: ReceiverFactory) returns (count: nat, monitors: seq<MonitorId>)
    ensures count == 1 && monitors == [f.monitor]
  {
    var c := new ReceiverCache();
    var _ := c.AddFactory(Some(f));
    var _ := c.AddFactory(Some(f));
    count, monitors := |c.factories|, c.monitorsAdded;
  }

  /** A receiver is created once for its address, and a second receiver on the same address is refused. */
  method ReceiverPerAddress(f: ReceiverFactory, a: Address) returns (first: Status, second: Status, created: seq<Receiver>)
    ensures first == Done && second == Threw(InvalidOperation) && created == [Receiver(f.id, a)]
  {
    var c := new ReceiverCache();
    var _ := c.AddFactory(Some(f));
    first := c.AddReceiver(f.kind, Some(a));
    second := c.AddReceiver(f.kind, Some(a));
    created := c.created;
  }

  /** Without a factory for the kind, AddReceiver fails with KeyNotFound and creates nothing. */
  method NoFactoryForKind(kind: TypeTag, a: Address) returns (st: Status, created: nat)
    ensures st == Threw(KeyNotFound) && created == 0
  {
    var c := new ReceiverCache();
    st := c.AddReceiver(kind, Some(a));
    created := |c.created|;
  }
}
