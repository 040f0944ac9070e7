/**
 * The connection-lifecycle base shared by NetMQ senders, receivers,
 * publishers and subscribers: a set of addresses and a connected flag. The
 * transport-specific bind (SocketAdd) and unbind (SocketRemove) hooks are
 * recorded in `log`, one On(a) per SocketAdd(a) and one Off(a) per
 * SocketRemove(a).
 */
module NetMQCommon {
  import opened Common
  import opened Toggles

  class NetMQConnection {
    var addresses: set<Address>
    var isConnected: bool
    /** The SocketAdd / SocketRemove calls made so far, in order. */
    var log: seq<Toggle<Address>>

    /** What the socket has bound: every address while connected, nothing otherwise. */
    ghost function Bound(): set<Address>
      reads this
    {
      if isConnected then addresses else {}
    }

    /**
     * The lifecycle invariant: the hook calls never bind an address twice nor
     * unbind one that is not bound, and they leave exactly `Bound()` bound.
     */
    ghost predicate Valid()
      reads this
    {
      NoRepeat({}, log) && Active({}, log) == Bound()
    }

    constructor ()
      ensures Valid()
      ensures addresses == {} && !isConnected && log == []
    {
      addresses, isConnected, log := {}, false, [];
    }

    /** The transport's bind hook. */
    method SocketAdd(address: Address)
      modifies this`log
      ensures log == old(log) + [On(address)]
    {
      log := log + [On(address)];
    }

    /** The transport's unbind hook. */
    method SocketRemove(address: Address)
      modifies this`log
      ensures log == old(log) + [Off(address)]
    {
      log := log + [Off(address)];
    }

    method AddAddress(address: Option<Address>) returns (st: Status)
      requires Valid()
      modifies this
      ensures Valid()
      ensures address.None? ==> st == Threw(ArgumentNull)
      ensures address.Some? ==> st == Done
      ensures isConnected == old(isConnected)
      ensures addresses == if address.Some? then old(addresses) + {address.value} else old(addresses)
      ensures log == if address.Some? && address.value !in old(addresses) && old(isConnected)
                     then old(log) + [On(address.value)] else old(log)
    {
      if address.None? {
        return Threw(ArgumentNull);
      }
      var a := address.value;
      if a in addresses {
        return Done;
      }
      addresses := addresses + {a};
      if isConnected {
        ghost var before := log;
        SocketAdd(a);
        ActiveAppend({}, before, [On(a)]);
        NoRepeatAppend({}, before, [On(a)]);
      }
      return Done;
    }

    method RemoveAddress(address: Option<Address>)
      requires Valid()
      modifies this
      ensures Valid()
      ensures isConnected == old(isConnected)
      ensures addresses == if address.Some? then old(addresses) - {address.value} else old(addresses)
      ensures log == if address.Some? && address.value in old(addresses) && old(isConnected)
                     then old(log) + [Off(address.value)] else old(log)
    {
      if address.None? || address.value !in addresses {
        return;
      }
      var a := address.value;
      if isConnected {
        ghost var before := log;
        SocketRemove(a);
        ActiveAppend({}, before, [Off(a)]);
        NoRepeatAppend({}, before, [Off(a)]);
      }
      addresses := addresses - {a};
    }

    /** Calls `SocketAdd` (or `SocketRemove`) once for every current address, in no particular order. */
    method SwitchAll(on: bool)
      modifies this`log
      ensures |log| >= |old(log)| && log[..|old(log)|] == old(log)
      ensures SwitchesEach(log[|old(log)|..], addresses, on)
    {
      var rest := addresses;
      ghost var done: set<Address> := {};
      while rest != {}
        invariant rest <= addresses && done == addresses - rest
        invariant |log| >= |old(log)| && log[..|old(log)|] == old(log)
        invariant SwitchesEach(log[|old(log)|..], done, on)
        decreases rest
      {
        var a :| a in rest;
        ghost var part := log[|old(log)|..];
        if on {
          SocketAdd(a);
        } else {
          SocketRemove(a);
        }
        assert log[|old(log)|..] == part + [Switch(on, a)];
        SwitchesEachExtend(part, done, on, a);
        rest := rest - {a};
        done := done + {a};
      }
    }

    method RemoveAllAddresses()
      requires Valid()
      modifies this
      ensures Valid()
      ensures addresses == {} && isConnected == old(isConnected)
      ensures !old(isConnected) ==> log == old(log)
      ensures old(isConnected) ==> |log| >= |old(log)| && log[..|old(log)|] == old(log)
                                   && SwitchesEach(log[|old(log)|..], old(addresses), false)
    {
      if isConnected {
        SwitchAll(false);
        LogMoves(old(log), addresses, false);
      }
      addresses := {};
    }

    method InitializeConnection()
      requires Valid()
      modifies this
      ensures Valid()
      ensures addresses == old(addresses) && isConnected
      ensures old(isConnected) ==> log == old(log)
      ensures !old(isConnected) ==> |log| >= |old(log)| && log[..|old(log)|] == old(log)
                                    && SwitchesEach(log[|old(log)|..], addresses, true)
    {
      if isConnected {
        return;
      }
      SwitchAll(true);
      LogMoves(old(log), addresses, true);
      isConnected := true;
    }

    method TerminateConnection()
      requires Valid()
      modifies this
      ensures Valid()
      ensures addresses == old(addresses) && !isConnected
      ensures !old(isConnected) ==> log == old(log)
      ensures old(isConnected) ==> |log| >= |old(log)| && log[..|old(log)|] == old(log)
                                   && SwitchesEach(log[|old(log)|..], addresses, false)
    {
      if !isConnected {
        return;
      }
      SwitchAll(false);
      LogMoves(old(log), addresses, false);
      isConnected := false;
    }

    /**
     * After the hooks were called once for every address in `s`, starting
     * from a valid log that bound nothing (switching on) or bound exactly `s`
     * (switching off), the log repeats no call and binds `s` (resp. nothing).
     */
    lemma LogMoves(before: seq<Toggle<Address>>, s: set<Address>, on: bool)
      requires NoRepeat({}, before) && Active({}, before) == (if on then {} else s)
      requires |log| >= |before| && log[..|before|] == before
      requires SwitchesEach(log[|before|..], s, on)
      ensures NoRepeat({}, log) && Active({}, log) == (if on then s else {})
    {
      var part := log[|before|..];
      assert log == before + part;
      ActiveAppend({}, before, part);
      NoRepeatAppend({}, before, part);
      SwitchEachEffect(Active({}, before), part, s, on);
    }
  }

  /** Adding the same address twice leaves one address. */
  method AddTwiceKeepsOne(a: Address) returns (count: nat)
    ensures count == 1
  {
    var c := new NetMQConnection();
    var _ := c.AddAddress(Some(a));
    var _ := c.AddAddress(Some(a));
    count := |c.addresses|;
  }

  /** The connected flag is false before InitializeConnection, true after it, and false after TerminateConnection. */
  method ConnectedFlagLifecycle() returns (before: bool, afterInit: bool, afterTerm: bool)
    ensures !before && afterInit && !afterTerm
  {
    var c := new NetMQConnection();
    before := c.isConnected;
    c.InitializeConnection();
    afterInit := c.isConnected;
    c.TerminateConnection();
    afterTerm := c.isConnected;
  }

  /** Terminating a connection that was never initialized calls no hook. */
  method TerminateBeforeInitialize(a: Address) returns (connected: bool, calls: seq<Toggle<Address>>)
    ensures !connected && calls == []
  {
    var c := new NetMQConnection();
    var _ := c.AddAddress(Some(a));
    c.TerminateConnection();
    connected, calls := c.isConnected, c.log;
  }

  /** Initializing twice binds every address once: the second call adds no hook call. */
  method InitializeTwiceBindsOnce(a: Address, b: Address) returns (calls: seq<Toggle<Address>>)
    ensures |calls| == |{a, b}|
    ensures forall i :: 0 <= i < |calls| ==> calls[i].On?
    ensures multiset(Items(calls)) == multiset{a, b} - (if a == b then multiset{a} else multiset{})
  {
    var c := new NetMQConnection();
    var _ := c.AddAddress(Some(a));
    var _ := c.AddAddress(Some(b));
    c.InitializeConnection();
    c.InitializeConnection();
    calls := c.log;
    assert calls == calls[0..];
    ListsOnceLength(Items(calls), {a, b});
    if a == b {
      assert {a, b} == {a};
    } else {
      MultisetOfInsert({a}, b);
    }
  }
}
