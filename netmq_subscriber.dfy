/**
 * Pigeon's NetMQSubscriber: a subscriber socket layered on the connection
 * lifecycle. The lifecycle state (addresses, connected flag, hook calls) is
 * the `conn` object; the subscriber adds a disposed flag, the socket it may
 * release, and the topic filter and connect calls it makes on the socket.
 */
module NetMQSubscribers {
  import opened Common
  import opened Toggles
  import opened NetMQCommon

  /** A call made on the subscriber socket. */
  datatype SocketCall =
    | Connect(address: Address)
    | Disconnect(address: Address)
    | SubscribeTopic(topic: string)
    | UnsubscribeTopic(topic: string)

  /** A topic dispatcher call: the extracted package, passed on with the subscriber as its sender. */
  datatype Dispatch<P> = Dispatch(package: P)

  class NetMQSubscriber {
    /** The inherited connection lifecycle. */
    const conn: NetMQConnection
    var disposed: bool
    /** The socket field has been nulled after the socket was disposed. */
    var socketReleased: bool
    /** The Connect, Disconnect, Subscribe and Unsubscribe calls made on the socket, in order. */
    var socketCalls: seq<SocketCall>

    /** The socket is released exactly when the subscriber is disposed, and a disposed subscriber is not connected. */
    ghost predicate Valid()
      reads this, conn
    {
      && conn.Valid()
      && (socketReleased <==> disposed)
      && (disposed ==> !conn.isConnected)
    }

    constructor (conn: NetMQConnection)
      requires conn.Valid() && !conn.isConnected
      ensures Valid() && this.conn == conn
      ensures !disposed && socketCalls == []
    {
      this.conn := conn;
      disposed, socketReleased, socketCalls := false, false, [];
    }

    /** The constructor's own checks: a null socket, then a null topic dispatcher. */
    static method Create(conn: NetMQConnection, hasSocket: bool, hasDispatcher: bool) returns (r: Result<NetMQSubscriber>)
      requires conn.Valid() && !conn.isConnected
      ensures r.Err? <==> !(hasSocket && hasDispatcher)
      ensures r.Err? ==> r.error == ArgumentNull
      ensures r.Ok? ==> fresh(r.value) && r.value.Valid() && r.value.conn == conn
                        && !r.value.disposed && r.value.socketCalls == []
    {
      var present := [hasSocket, hasDispatcher];
      assert present[0] == hasSocket && present[1] == hasDispatcher;
      var e := NullCheck(present);
      if e.Some? {
        return Err(e.value);
      }
      var s := new NetMQSubscriber(conn);
      return Ok(s);
    }

    /** Subscribes the socket to the topic type's full name; refused once disposed, and while not connected. */
    method Subscribe(topicType: TypeTag) returns (st: Status)
      requires Valid()
      modifies this`socketCalls
      ensures Valid()
      ensures disposed ==> st == Threw(InvalidOperation)
      ensures !disposed && !conn.isConnected ==> st == Threw(InvalidCast)
      ensures st == Done <==> !disposed && conn.isConnected
      ensures socketCalls == if st == Done then old(socketCalls) + [SubscribeTopic(topicType.fullName)] else old(socketCalls)
    {
      if disposed {
        return Threw(InvalidOperation);
      }
      if !conn.isConnected {
        return Threw(InvalidCast);
      }
      socketCalls := socketCalls + [SubscribeTopic(topicType.fullName)];
      return Done;
    }

    /** Removes the topic filter; only a disposed subscriber refuses, a disconnected one does not. */
    method Unsubscribe(topicType: TypeTag) returns (st: Status)
      requires Valid()
      modifies this`socketCalls
      ensures Valid()
      ensures st == (if disposed then Threw(InvalidOperation) else Done)
      ensures socketCalls == if st == Done then old(socketCalls) + [UnsubscribeTopic(topicType.fullName)] else old(socketCalls)
    {
      if disposed {
        return Threw(InvalidOperation);
      }
      socketCalls := socketCalls + [UnsubscribeTopic(topicType.fullName)];
      return Done;
    }

    /** The bind hook: connects the socket to the address unless disposed. */
    method SocketAdd(address: Address) returns (st: Status)
      requires Valid()
      modifies this`socketCalls
      ensures Valid()
      ensures st == (if disposed then Threw(InvalidOperation) else Done)
      ensures socketCalls == if st == Done then old(socketCalls) + [Connect(address)] else old(socketCalls)
    {
      if disposed {
        return Threw(InvalidOperation);
      }
      socketCalls := socketCalls + [Connect(address)];
      return Done;
    }

    /** The unbind hook: disconnects the socket from the address unless disposed. */
    method SocketRemove(address: Address) returns (st: Status)
      requires Valid()
      modifies this`socketCalls
      ensures Valid()
      ensures st == (if disposed then Threw(InvalidOperation) else Done)
      ensures socketCalls == if st == Done then old(socketCalls) + [Disconnect(address)] else old(socketCalls)
    {
      if disposed {
        return Threw(InvalidOperation);
      }
      socketCalls := socketCalls + [Disconnect(address)];
      return Done;
    }

    /**
     * The first call terminates the connection (unbinding every address once
     * if it was connected), releases the socket and marks the subscriber
     * disposed; later calls change nothing.
     */
    method Dispose()
      requires Valid()
      modifies this, conn
      ensures Valid() && disposed && socketReleased && !conn.isConnected
      ensures conn.addresses == old(conn.addresses) && socketCalls == old(socketCalls)
      ensures old(disposed) ==> unchanged(this) && unchanged(conn)
      ensures !old(conn.isConnected) ==> conn.log == old(conn.log)
      ensures old(conn.isConnected) ==> |conn.log| >= |old(conn.log)| && conn.log[..|old(conn.log)|] == old(conn.log)
                                        && SwitchesEach(conn.log[|old(conn.log)|..], conn.addresses, false)
    {
      if disposed {
        return;
      }
      conn.TerminateConnection();
      socketReleased := true;
      disposed := true;
    }
  }

  /**
   * What one receive-ready event leads to: nothing if no message could be
   * received (None) or the message fails the topic-message check, otherwise
   * one dispatcher call with the extracted package.
   */
  function OnMessageReceived<M, P>(received: Option<M>, isValidTopicMessage: M -> bool, extractTopic: M -> P)
    : (calls: seq<Dispatch<P>>)
    ensures |calls| <= 1
    ensures |calls| == 1 <==> received.Some? && isValidTopicMessage(received.value)
    ensures |calls| == 1 ==> calls[0] == Dispatch(extractTopic(received.value))
  {
    if received.None? || !isValidTopicMessage(received.value) then []
    else [Dispatch(extractTopic(received.value))]
  }

  /** A subscriber subscribes only while connected, and disposing it twice disposes it once. */
  method SubscribeAcrossLifecycle(a: Address, topic: TypeTag)
    returns (beforeConnect: Status, connected: Status, afterDispose: Status, unsubscribed: Status, calls: seq<SocketCall>,
             bound: bool)
    ensures beforeConnect == Threw(InvalidCast) && connected == Done && afterDispose == Threw(InvalidOperation)
    ensures unsubscribed == Threw(InvalidOperation) && calls == [SubscribeTopic(topic.fullName)] && !bound
  {
    var conn := new NetMQConnection();
    var s := new NetMQSubscriber(conn);
    beforeConnect := s.Subscribe(topic);
    var _ := conn.AddAddress(Some(a));
    conn.InitializeConnection();
    connected := s.Subscribe(topic);
    s.Dispose();
    s.Dispose();
    afterDispose := s.Subscribe(topic);
    unsubscribed := s.Unsubscribe(topic);
    calls, bound := s.socketCalls, conn.isConnected;
  }

  /** Unsubscribing does not ask for a connection. */
  method UnsubscribeWhileDisconnected(topic: TypeTag) returns (st: Status, calls: seq<SocketCall>)
    ensures st == Done && calls == [UnsubscribeTopic(topic.fullName)]
  {
    var conn := new NetMQConnection();
    var s := new NetMQSubscriber(conn);
    st := s.Unsubscribe(topic);
    calls := s.socketCalls;
  }
}
