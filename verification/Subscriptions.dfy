/** The message service's reference-counted room subscriptions. */
module Subscriptions {
  import opened Prelude
  import Broker

  type Room = Broker.Room

  /** id is the broker subscription that the room's first reference opened. */
  datatype Subscription = Subscription(refs: int, id: nat)

  type Table = map<Room, Subscription>

  function AddRef(t: Table, room: Room): Table
    requires room in t
  {
    t[room := t[room].(refs := t[room].refs + 1)]
  }

  function Insert(t: Table, room: Room, id: nat): Table { t[room := Subscription(1, id)] }

  /** Gives one reference back; the last one removes the entry. */
  function Release(t: Table, room: Room): Table {
    if room !in t then t
    else if t[room].refs - 1 > 0 then t[room := t[room].(refs := t[room].refs - 1)]
    else t - {room}
  }

  /** The subscription that the releaser of the last reference has to close, after leaving the lock. */
  function LastReleased(t: Table, room: Room): Option<nat> {
    if room in t && t[room].refs - 1 <= 0 then Some(t[room].id) else None
  }

  class RoomSubscriptions {
    var subscriptions: Table
    const broker: Broker.RedisPubSubBroker

    /** Every entry holds references and its subscription is open and was made for its room. */
    ghost predicate Valid()
      reads this, broker
    {
      && Broker.Valid(broker.View())
      && forall r :: r in subscriptions ==>
        && subscriptions[r].refs > 0
        && subscriptions[r].id in broker.closers && broker.rooms[subscriptions[r].id] == r
    }

    constructor (broker: Broker.RedisPubSubBroker)
      requires broker.View() == Broker.EMPTY
      ensures Valid() && subscriptions == map[] && this.broker == broker
    {
      subscriptions := map[];
      this.broker := broker;
    }

    method AcquireRoomSubscription(room: Room, confirmed: bool) returns (ok: bool)
      requires Valid()
      modifies this, broker
      ensures Valid()
      ensures ok == (room in old(subscriptions) || confirmed)
      ensures ok ==>
        && subscriptions.Keys == old(subscriptions).Keys + {room}
        && subscriptions[room].refs == 1 + (if room in old(subscriptions) then old(subscriptions)[room].refs else 0)
        && (room in old(subscriptions) ==> subscriptions[room].id == old(subscriptions)[room].id)
        && (room !in old(subscriptions) ==> subscriptions[room].id == broker.subIndex == old(broker.subIndex) + 1)
      ensures forall r :: r in old(subscriptions) && r != room ==>
        r in subscriptions && subscriptions[r] == old(subscriptions)[r]
      ensures broker.closers == old(broker.closers)
        + if room !in old(subscriptions) && confirmed then {broker.subIndex} else {}
      ensures !ok ==> subscriptions == old(subscriptions)
      ensures subscriptions ==
        if room in old(subscriptions) then AddRef(old(subscriptions), room)
        else if confirmed then Insert(old(subscriptions), room, broker.subIndex)
        else old(subscriptions)
      ensures broker.View() ==
        if room !in old(subscriptions) && confirmed then Broker.Register(old(broker.View()), room)
        else old(broker.View())
    {
      if room in subscriptions {
        var s := subscriptions[room];
        subscriptions := subscriptions[room := s.(refs := s.refs + 1)];
        return true;
      }
      Broker.RegisterValid(broker.View(), room);
      var id := broker.Subscribe(room, confirmed);
      if id.None? {
        return false;
      }
      subscriptions := subscriptions[room := Subscription(1, id.value)];
      return true;
    }

    method ReleaseRoomSubscription(room: Room)
      requires Valid()
      modifies this, broker
      ensures Valid()
      ensures subscriptions == Release(old(subscriptions), room)
      ensures room !in old(subscriptions) ==> subscriptions == old(subscriptions) && broker.View() == old(broker.View())
      ensures room in old(subscriptions) ==>
        var was := old(subscriptions)[room];
        if was.refs > 1 then
          && subscriptions == old(subscriptions)[room := Subscription(was.refs - 1, was.id)]
          && broker.View() == old(broker.View())
        else
          && subscriptions == old(subscriptions) - {room}
          && broker.closers == old(broker.closers) - {was.id} && broker.fired == old(broker.fired) + {was.id}
      ensures
        var last := LastReleased(old(subscriptions), room);
        broker.View() == if last.Some? then Broker.Fire(Broker.Drop(old(broker.View()), last.value), last.value)
                         else old(broker.View())
    {
      if room !in subscriptions {
        return;
      }
      var s := subscriptions[room];
      subscriptions := subscriptions[room := s.(refs := s.refs - 1)];
      if subscriptions[room].refs > 0 {
        return;
      }
      subscriptions := subscriptions - {room};
      broker.Unsubscribe(s.id);
    }

    /** Closing the service ends every subscription that has an entry, and then whatever the broker still knows. */
    method Close()
      requires Valid()
      modifies this, broker
      ensures Valid() && subscriptions == map[]
      ensures broker.closers == {} && broker.fired == broker.rooms.Keys - Broker.Pending(old(broker.View()))
      ensures broker.rooms == old(broker.rooms)
    {
      ghost var start := broker.View();
      var todo := subscriptions.Keys;
      while todo != {}
        invariant todo <= subscriptions.Keys && subscriptions == old(subscriptions)
        invariant Broker.Valid(broker.View()) && broker.rooms == start.rooms
        invariant Broker.Pending(broker.View()) == Broker.Pending(start)
        invariant forall r :: r in todo ==>
          subscriptions[r].id in broker.closers && broker.rooms[subscriptions[r].id] == r
        decreases todo
      {
        var r :| r in todo;
        var id := subscriptions[r].id;
        ghost var b := broker.View();
        Broker.UnsubscribeValid(b, id);
        Broker.UnsubscribeValid(Broker.Drop(b, id), id);
        broker.Unsubscribe(id);
        assert Broker.Pending(b) + {id} - {id} == Broker.Pending(b);
        todo := todo - {r};
      }
      subscriptions := map[];
      Broker.CloseAllValid(broker.View());
      broker.Close();
    }
  }
}
