/** The broker's table of subscription closers, and its channel names. */
module Broker {
  import opened Prelude

  type Room = Bytes

  function ChannelName(room: Room): Bytes { "dm:room:" + room }

  /** Every room has a channel of its own, so a subscriber only hears messages published for its room. */
  lemma ChannelsSeparate(a: Room, b: Room)
    ensures ChannelName(a) == ChannelName(b) <==> a == b
  {
    assert ChannelName(a)[8..] == a && ChannelName(b)[8..] == b;
  }

  /** Subscriptions are numbered from 1; rooms tells what each was opened for, fired holds those whose guard against a
      second close has been used, and closes counts the closes of the underlying subscription. */
  datatype Subscriptions = Subscriptions(
    subIndex: nat, closers: set<nat>, rooms: map<nat, Room>, fired: set<nat>, closes: map<nat, nat>)

  const EMPTY := Subscriptions(0, {}, map[], {}, map[])

  /** A subscription is registered under the next number. */
  function Register(b: Subscriptions, room: Room): Subscriptions {
    var id := b.subIndex + 1;
    b.(subIndex := id, closers := b.closers + {id}, rooms := b.rooms[id := room], closes := b.closes[id := 0])
  }

  /** First half of unsubscribing: forget the closer. */
  function Drop(b: Subscriptions, id: nat): Subscriptions { b.(closers := b.closers - {id}) }

  /** Second half of unsubscribing: close the underlying subscription, unless that was done before. */
  function Fire(b: Subscriptions, id: nat): Subscriptions {
    if id in b.fired || id !in b.closes then b
    else b.(fired := b.fired + {id}, closes := b.closes[id := b.closes[id] + 1])
  }

  /** Everything that has a closer is closed, unless that was done before, and forgotten. */
  function CloseAll(b: Subscriptions): Subscriptions {
    b.(closers := {}, fired := b.fired + b.closers,
       closes := map id | id in b.closes ::
         if id in b.closers && id !in b.fired then b.closes[id] + 1 else b.closes[id])
  }

  /** Numbers are never reused, and each registered subscription is in exactly one of three places: it has a closer,
      its close is pending, or it was closed exactly once. */
  ghost predicate Valid(b: Subscriptions) {
    && (forall id :: id in b.rooms <==> 1 <= id <= b.subIndex)
    && b.closes.Keys == b.rooms.Keys
    && b.closers <= b.rooms.Keys && b.fired <= b.rooms.Keys
    && b.closers !! b.fired
    && forall id :: id in b.closes ==> b.closes[id] == if id in b.fired then 1 else 0
  }

  /** Registered, no closer any more, and not closed yet: somebody is between the two halves of unsubscribing. */
  ghost function Pending(b: Subscriptions): set<nat> { b.rooms.Keys - b.closers - b.fired }

  lemma RegisterValid(b: Subscriptions, room: Room)
    requires Valid(b)
    ensures
      var b', id := Register(b, room), b.subIndex + 1;
      && Valid(b') && id !in b.rooms && id in b'.closers && b'.rooms[id] == room && Pending(b') == Pending(b)
      && forall known :: known in b.rooms ==> known in b'.rooms && b'.rooms[known] == b.rooms[known]
  {
  }

  /** Unsubscribing twice, or after the broker was closed, changes nothing more: a close happens at most once. */
  lemma UnsubscribeValid(b: Subscriptions, id: nat)
    requires Valid(b) && id in b.rooms
    ensures Valid(Drop(b, id))
    ensures id !in b.closers ==> Valid(Fire(b, id)) && Fire(Fire(b, id), id) == Fire(b, id)
    ensures id !in b.closers ==> Pending(Fire(b, id)) == Pending(b) - {id}
    ensures Pending(Drop(b, id)) == if id in b.closers then Pending(b) + {id} else Pending(b)
  {
  }

  lemma CloseAllValid(b: Subscriptions)
    requires Valid(b)
    ensures
      var b' := CloseAll(b);
      && Valid(b') && b'.closers == {} && Pending(b') == Pending(b)
      && b'.fired == b.rooms.Keys - Pending(b)
  {
  }

  /** When Close returns, every subscription has been closed exactly once or somebody is about to close it. */
  lemma CloseAllEnds(b: Subscriptions, id: nat)
    requires Valid(b) && id in b.rooms
    ensures id in CloseAll(b).closes && (id in Pending(b) || CloseAll(b).closes[id] == 1)
  {
  }

  class RedisPubSubBroker {
    var subIndex: nat
    var closers: set<nat>
    var rooms: map<nat, Room>
    var fired: set<nat>
    var closes: map<nat, nat>

    function View(): Subscriptions
      reads this
    {
      Subscriptions(subIndex, closers, rooms, fired, closes)
    }

    constructor ()
      ensures View() == EMPTY && Valid(View())
    {
      subIndex, closers, rooms, fired, closes := 0, {}, map[], {}, map[];
    }

    /** A subscription that Redis does not confirm leaves no trace. */
    method Subscribe(room: Room, confirmed: bool) returns (id: Option<nat>)
      requires Valid(View())
      modifies this
      ensures Valid(View())
      ensures View() == if confirmed then Register(old(View()), room) else old(View())
      ensures confirmed ==>
        && id == Some(old(subIndex) + 1) && subIndex == old(subIndex) + 1
        && closers == old(closers) + {subIndex} && rooms == old(rooms)[subIndex := room]
        && fired == old(fired) && closes == old(closes)[subIndex := 0]
      ensures !confirmed ==> id == None
    {
      RegisterValid(View(), room);
      if !confirmed {
        return None;
      }
      subIndex := subIndex + 1;
      closers := closers + {subIndex};
      rooms := rooms[subIndex := room];
      closes := closes[subIndex := 0];
      return Some(subIndex);
    }

    method FireOnce(id: nat)
      requires id in closes
      modifies this`fired, this`closes
      ensures View() == Fire(old(View()), id)
    {
      if id !in fired {
        fired := fired + {id};
        closes := closes[id := closes[id] + 1];
      }
    }

    /** The function that Subscribe hands out. */
    method Unsubscribe(id: nat)
      requires Valid(View()) && id in rooms
      modifies this
      ensures Valid(View())
      ensures View() == Fire(Drop(old(View()), id), id)
      ensures closers == old(closers) - {id} && fired == old(fired) + {id}
      ensures rooms == old(rooms) && subIndex == old(subIndex) && closes == old(closes)[id := 1]
    {
      UnsubscribeValid(View(), id);
      UnsubscribeValid(Drop(View(), id), id);
      closers := closers - {id};
      FireOnce(id);
    }

    method Close()
      requires Valid(View())
      modifies this
      ensures Valid(View())
      ensures View() == CloseAll(old(View()))
      ensures closers == {} && fired == old(fired) + old(closers)
      ensures rooms == old(rooms) && subIndex == old(subIndex) && closes.Keys == old(closes).Keys
      ensures forall id :: id in rooms ==> id in Pending(old(View())) || (id in closes && closes[id] == 1)
    {
      ghost var before := View();
      CloseAllValid(before);
      forall id | id in before.rooms
        ensures id in CloseAll(before).closes && (id in Pending(before) || CloseAll(before).closes[id] == 1)
      {
        CloseAllEnds(before, id);
      }
      CloseNoneAndAll(before);
      hide Valid, CloseSome, CloseAll, Fire;
      while closers != {}
        invariant subIndex == before.subIndex && rooms == before.rooms
        invariant closers <= before.closers
        invariant View() == CloseSome(before, closers)
        decreases closers
      {
        var id :| id in closers;
        CloseOneMore(before, closers, id);
        FireOnce(id);
        closers := closers - {id};
      }
    }
  }

  /** The state while Close is under way: the closers that are left are still to be closed. */
  ghost function CloseSome(b: Subscriptions, left: set<nat>): Subscriptions {
    b.(closers := left, fired := b.fired + (b.closers - left),
       closes := map id | id in b.closes ::
         if id in b.closers - left && id !in b.fired then b.closes[id] + 1 else b.closes[id])
  }

  lemma CloseOneMore(b: Subscriptions, left: set<nat>, id: nat)
    requires Valid(b) && left <= b.closers && id in left
    ensures id in CloseSome(b, left).closes
    ensures Fire(CloseSome(b, left), id).(closers := left - {id}) == CloseSome(b, left - {id})
  {
  }

  lemma CloseNoneAndAll(b: Subscriptions)
    ensures CloseSome(b, b.closers) == b && CloseSome(b, {}) == CloseAll(b)
  {
  }
}
