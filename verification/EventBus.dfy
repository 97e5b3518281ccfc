/** The event bus and its topics as objects, changed in place by one operation at a time. */
module EventBus {
  import opened Base
  import opened BusModel

  /** A subscriber; its Send either takes the event or panics. */
  datatype Subscriber = Subscriber(id: SubId, panics: bool)

  datatype Event = Event(op: uint16, payload: seq<nat>)

  datatype Delivery = Delivery(to: SubId, topic: Name, event: Event)

  class Topic {
    var subscribers: map<SubId, Subscriber>

    ghost predicate Valid()
      reads this
    {
      forall id :: id in subscribers ==> subscribers[id].id == id
    }

    constructor ()
      ensures Valid() && subscribers == map[]
    {
      subscribers := map[];
    }

    method Add(sub: Subscriber)
      requires Valid()
      modifies this
      ensures Valid() && subscribers == old(subscribers)[sub.id := sub]
    {
      subscribers := subscribers[sub.id := sub];
    }

    method Remove(sub: Subscriber)
      requires Valid()
      modifies this
      ensures Valid() && subscribers == old(subscribers) - {sub.id}
    {
      subscribers := subscribers - {sub.id};
    }

    /** The subscribers at this moment, in some order. */
    method Snapshot() returns (subs: seq<Subscriber>)
      requires Valid()
      ensures forall i, j :: 0 <= i < j < |subs| ==> subs[i].id != subs[j].id
      ensures forall sub :: sub in subs <==> sub.id in subscribers && subscribers[sub.id] == sub
    {
      subs := [];
      var rest := subscribers;
      while rest != map[]
        invariant forall id :: id in rest ==> id in subscribers && rest[id] == subscribers[id]
        invariant forall i, j :: 0 <= i < j < |subs| ==> subs[i].id != subs[j].id
        invariant forall sub :: sub in subs <==> sub.id in subscribers && sub.id !in rest && subscribers[sub.id] == sub
        decreases rest.Keys
      {
        var id :| id in rest;
        assert rest[id] !in subs;
        subs := subs + [rest[id]];
        rest := rest - {id};
      }
    }

    /** Deliver to every subscriber of a snapshot; a panicking one does not stop the others. */
    method Send(topic: Name, event: Event) returns (log: seq<Delivery>)
      requires Valid()
      ensures forall i, j :: 0 <= i < j < |log| ==> log[i].to != log[j].to
      ensures forall d :: d in log <==>
                d.topic == topic && d.event == event && d.to in subscribers && !subscribers[d.to].panics
    {
      var subs := Snapshot();
      log := [];
      for i := 0 to |subs|
        invariant forall d :: d in log <==>
                    && d.topic == topic && d.event == event
                    && exists j :: 0 <= j < i && subs[j].id == d.to && !subs[j].panics
        invariant forall a, b :: 0 <= a < b < |log| ==> log[a].to != log[b].to
      {
        if !subs[i].panics {
          assert forall d :: d in log ==> d.to != subs[i].id;
          log := log + [Delivery(subs[i].id, topic, event)];
        }
      }
      forall d ensures d in log <==>
          d.topic == topic && d.event == event && d.to in subscribers && !subscribers[d.to].panics
      {
        if d.to in subscribers {
          assert subscribers[d.to] in subs;
        }
      }
    }
  }

  class EventBus {
    var topics: map<Name, Topic>

    /** Topics are not shared between names. */
    ghost predicate Unshared()
      reads this, topics.Values
    {
      && (forall n :: n in topics ==> topics[n].Valid())
      && (forall n, m :: n in topics && m in topics && n != m ==> topics[n] != topics[m])
    }

    /** Between operations no topic is stored empty either. */
    ghost predicate Valid()
      reads this, topics.Values
    {
      Unshared() && NoEmptyTopic(View())
    }

    ghost function View(): (view: Bus)
      reads this, topics.Values
    {
      map n | n in topics :: topics[n].subscribers.Keys
    }

    constructor ()
      ensures Valid() && View() == map[]
    {
      topics := map[];
    }

    /** The storing half of LoadOrStore. */
    method StoreNew(n: Name) returns (t: Topic)
      requires Valid() && n !in topics
      modifies `topics
      ensures Unshared() && topics == old(topics)[n := t] && fresh(t)
      ensures View() == old(View())[n := {}]
    {
      t := new Topic();
      topics := topics[n := t];
      assert forall m :: m in old(topics) ==> topics[m] == old(topics[m]) && unchanged(old(topics[m]));
      assert t.subscribers.Keys == {};
      assert forall m :: m in View() <==> m in old(View())[n := {}];
      assert forall m :: m in old(View()) ==> View()[m] == old(View())[m];
    }

    /** LoadOrStore: the stored topic of the name, or a new empty one stored under it. */
    method GetTopic(n: Name) returns (t: Topic)
      requires Valid()
      modifies `topics
      ensures Unshared() && n in topics && topics[n] == t
      ensures forall m :: m in topics && m != n ==> m in old(topics) && topics[m] == old(topics[m])
      ensures if n in old(topics) then t == old(topics[n]) else fresh(t)
      ensures View() == old(View())[n := Members(old(View()), n)]
    {
      if n in topics {
        t := topics[n];
        assert View()[n := View()[n]] == View();
      } else {
        t := StoreNew(n);
      }
    }

    /** The view after a change to one topic. */
    twostate lemma OneTopicChanged(n: Name)
      requires old(Unshared()) && n in topics && unchanged(this)
      requires forall m :: m in topics && m != n ==> unchanged(topics[m])
      ensures View() == old(View())[n := topics[n].subscribers.Keys]
    {}

    method AddTo(n: Name, sub: Subscriber)
      requires Unshared() && n in topics
      modifies topics[n]
      ensures Unshared() && View() == Subscribed(old(View()), n, sub.id)
    {
      topics[n].Add(sub);
      assert topics[n].subscribers.Keys == old(View())[n] + {sub.id};
      OneTopicChanged(n);
    }

    method RemoveFrom(n: Name, sub: Subscriber)
      requires Unshared() && n in topics
      modifies topics[n]
      ensures Unshared() && View() == old(View())[n := old(View())[n] - {sub.id}]
    {
      topics[n].Remove(sub);
      OneTopicChanged(n);
    }

    /** Run alone, the first pass of the retry loop finds its own topic still in the map. */
    method Subscribe(n: Name, sub: Subscriber)
      requires Valid()
      modifies this, if n in topics then {topics[n]} else {}
      ensures Valid() && View() == Subscribed(old(View()), n, sub.id)
      ensures n in topics && (n in old(topics) || fresh(topics[n]))
      ensures forall m :: m in topics && m != n ==> m in old(topics) && topics[m] == old(topics[m])
    {
      ghost var before := View();
      var t := GetTopic(n);
      AddTo(n, sub);
      SubscribeStores(before, n, sub.id);
    }

    method Unsubscribe(n: Name, sub: Subscriber)
      requires Valid()
      modifies this, if n in topics then {topics[n]} else {}
      ensures Valid() && View() == Unsubscribed(old(View()), n, sub.id)
      ensures forall m :: m in topics ==> m in old(topics) && topics[m] == old(topics[m])
    {
      if n !in topics {
        return;
      }
      RemoveFrom(n, sub);
      UnsubscribeChangesOne(old(View()), n, sub.id);
      if topics[n].subscribers == map[] {
        assert View()[n] == {};
        CompareAndDelete(n, topics[n]);
      } else {
        assert View()[n] != {};
      }
    }

    /** Delete the entry if it still holds this instance. */
    method CompareAndDelete(n: Name, t: Topic)
      requires Unshared()
      modifies `topics
      ensures Unshared()
      ensures topics == if n in old(topics) && old(topics[n]) == t then old(topics) - {n} else old(topics)
      ensures View() == if n in old(topics) && old(topics[n]) == t then old(View()) - {n} else old(View())
    {
      if n in topics && topics[n] == t {
        topics := topics - {n};
      }
    }

    /** Exactly once to each subscriber of the topic that takes events, and to nobody else. */
    method Publish(n: Name, event: Event) returns (log: seq<Delivery>)
      requires Valid()
      ensures forall i, j :: 0 <= i < j < |log| ==> log[i].to != log[j].to
      ensures forall d :: d in log ==> d.topic == n && d.event == event
      ensures forall id :: Delivery(id, n, event) in log <==>
                id in Members(View(), n) && !topics[n].subscribers[id].panics
    {
      log := [];
      if n in topics {
        log := topics[n].Send(n, event);
      }
    }
  }
}
