/**
 * Pigeon's PublisherCache: publisher factories keyed by the publisher kind
 * they make, publishers keyed by the address they bind, and a Publish that
 * hands the topic event itself to every publisher (the publishers package it).
 */
module PigeonPublishers {
  import opened Common

  /** A publisher factory: its identity, the publisher kind it makes and the monitor of its publishers. */
  datatype PublisherFactory = PublisherFactory(id: nat, kind: TypeTag, monitor: MonitorId)

  /** The publisher a factory created for an address. */
  datatype Publisher = Publisher(factory: nat, address: Address)

  /** One Publish call on a publisher. */
  datatype Publication = Publication(target: Publisher, event: Obj)

  function Targets(ps: seq<Publication>): (ts: seq<Publisher>)
    ensures |ts| == |ps| && forall i :: 0 <= i < |ps| ==> ts[i] == ps[i].target
  {
    seq(|ps|, i requires 0 <= i < |ps| => ps[i].target)
  }

  class PublisherCache {
    var factories: map<TypeTag, PublisherFactory>
    var publishers: map<Address, Publisher>
    /** The AddMonitor calls made on the shared monitor cache. */
    var monitorsAdded: seq<MonitorId>
    /** The Publish calls made on publishers, in order. */
    var published: seq<Publication>

    /** Factories are filed under the kind they make; each publisher is bound to the address it is filed under. */
    ghost predicate Valid()
      reads this
    {
      && (forall k :: k in factories ==> factories[k].kind == k)
      && (forall a :: a in publishers ==> publishers[a].address == a)
    }

    constructor ()
      ensures Valid()
      ensures factories == map[] && publishers == map[] && monitorsAdded == [] && published == []
    {
      factories, publishers, monitorsAdded, published := map[], map[], [], [];
    }

    /** Registers a factory for its kind and its monitor with the monitor cache; a second factory of a kind is ignored. */
    method AddFactory(factory: Option<PublisherFactory>) returns (st: Status)
      requires Valid()
      modifies this
      ensures Valid() && publishers == old(publishers) && published == old(published)
      ensures factory.None? ==> st == Threw(ArgumentNull)
      ensures factory.Some? ==> st == Done
      ensures if factory.Some? && factory.value.kind !in old(factories)
              then factories == old(factories)[factory.value.kind := factory.value]
                   && monitorsAdded == old(monitorsAdded) + [factory.value.monitor]
              else factories == old(factories) && monitorsAdded == old(monitorsAdded)
    {
      if factory.None? {
        return Threw(ArgumentNull);
      }
      var f := factory.value;
      if f.kind in factories {
        return Done;
      }
      factories := factories[f.kind := f];
      monitorsAdded := monitorsAdded + [f.monitor];
      return Done;
    }

    /** Creates a publisher of kind `publisherType` for the address; a kind without a factory is a MissingFactory error. */
    method AddPublisher(publisherType: TypeTag, address: Option<Address>) returns (st: Status)
      requires Valid()
      modifies this`publishers
      ensures Valid()
      ensures address.None? ==> st == Threw(ArgumentNull)
      ensures address.Some? && address.value in old(publishers) ==> st == Threw(InvalidOperation)
      ensures address.Some? && address.value !in old(publishers) && publisherType !in factories ==> st == Threw(MissingFactory(publisherType))
      ensures st == Done <==> address.Some? && address.value !in old(publishers) && publisherType in factories
      ensures if st == Done
              then publishers == old(publishers)[address.value := Publisher(factories[publisherType].id, address.value)]
              else publishers == old(publishers)
    {
      if address.None? {
        return Threw(ArgumentNull);
      }
      var a := address.value;
      if a in publishers {
        return Threw(InvalidOperation);
      }
      if publisherType !in factories {
        return Threw(MissingFactory(publisherType));
      }
      publishers := publishers[a := Publisher(factories[publisherType].id, a)];
      return Done;
    }

    /** Publishes the event on every publisher exactly once, in no particular order. */
    method Publish(topicEvent: Option<Obj>) returns (st: Status)
      requires Valid()
      modifies this`published
      ensures topicEvent.None? ==> st == Threw(ArgumentNull) && published == old(published)
      ensures topicEvent.Some? ==> st == Done
      ensures |published| >= |old(published)| && published[..|old(published)|] == old(published)
      ensures topicEvent.Some? ==> var delta := published[|old(published)|..];
                                   && ListsOnce(Targets(delta), publishers.Values)
                                   && |delta| == |publishers|
                                   && forall i :: 0 <= i < |delta| ==> delta[i].event == topicEvent.value
    {
      if topicEvent.None? {
        return Threw(ArgumentNull);
      }
      var e := topicEvent.value;
      var rest := publishers.Values;
      ghost var done: set<Publisher> := {};
      while rest != {}
        invariant rest <= publishers.Values && done == publishers.Values - rest
        invariant |published| >= |old(published)| && published[..|old(published)|] == old(published)
        invariant ListsOnce(Targets(published[|old(published)|..]), done)
        invariant forall i :: |old(published)| <= i < |published| ==> published[i].event == e
        decreases rest
      {
        var p :| p in rest;
        ghost var part := published[|old(published)|..];
        published := published + [Publication(p, e)];
        assert Targets(published[|old(published)|..]) == Targets(part) + [p];
        ListsOnceExtend(Targets(part), done, p);
        rest := rest - {p};
        done := done + {p};
      }
      PublishersDistinct();
      ListsOnceLength(Targets(published[|old(published)|..]), publishers.Values);
      return Done;
    }

    /** Publishers bound to different addresses are different publishers, so there is one per address. */
    lemma PublishersDistinct()
      requires Valid()
      ensures |publishers.Values| == |publishers|
    {
      InjectiveValuesCount(publishers);
    }
  }

  /** A publisher of a kind without a factory is refused with a MissingFactory error naming the kind. */
  method MissingKindRefused(kind: TypeTag, a: Address) returns (st: Status, count: nat)
    ensures st == Threw(MissingFactory(kind)) && count == 0
  {
    var c := new PublisherCache();
    st := c.AddPublisher(kind, Some(a));
    count := |c.publishers|;
  }

  /** A second publisher on an address already bound is refused and the first one is kept. */
  method SameAddressTwice(f: PublisherFactory, a: Address) returns (first: Status, second: Status, count: nat)
    ensures first == Done && second == Threw(InvalidOperation) && count == 1
  {
    var c := new PublisherCache();
    var _ := c.AddFactory(Some(f));
    first := c.AddPublisher(f.kind, Some(a));
    second := c.AddPublisher(f.kind, Some(a));
    count := |c.publishers|;
  }

  /** Adding the same factory twice registers its monitor once. */
  method FactoryTwiceOneMonitor(f: PublisherFactory) returns (monitors: seq<MonitorId>, status: Status)
    ensures monitors == [f.monitor] && status == Done
  {
    var c := new PublisherCache();
    var _ := c.AddFactory(Some(f));
    status := c.AddFactory(Some(f));
    monitors := c.monitorsAdded;
  }

  /** An event published on a cache with publishers at two addresses reaches two publishers. */
  method PublishReachesEach(f: PublisherFactory, a: Address, b: Address, e: Obj) returns (deliveries: nat)
    requires a != b
    ensures deliveries == 2
  {
    var c := new PublisherCache();
    var _ := c.AddFactory(Some(f));
    var _ := c.AddPublisher(f.kind, Some(a));
    var _ := c.AddPublisher(f.kind, Some(b));
    assert c.publishers.Keys == {a, b};
    var _ := c.Publish(Some(e));
    deliveries := |c.published|;
  }
}
