/** A client's own subscription books, kept against the bus, and the sweep when it disconnects. */
module Client {
  import opened Base
  import opened BusModel
  import opened EventBus

  function Decimal(n: nat): (digits: string) {
    var digit := ['0' + (n % 10) as char];
    if n < 10 then digit else Decimal(n / 10) + digit
  }

  function PersonalTopic(id: SubId): (n: Name) {
    "client:" + Decimal(id)
  }

  /** What a string of digits stands for. */
  function Value(digits: string): (n: nat)
    requires forall i :: 0 <= i < |digits| ==> '0' <= digits[i] <= '9'
  {
    if digits == "" then 0 else 10 * Value(digits[..|digits| - 1]) + (digits[|digits| - 1] - '0') as nat
  }

  lemma {:induction false} DecimalReadsBack(n: nat)
    ensures Decimal(n) != "" && forall i :: 0 <= i < |Decimal(n)| ==> '0' <= Decimal(n)[i] <= '9'
    ensures Value(Decimal(n)) == n
  {
    var digit := '0' + (n % 10) as char;
    if n < 10 {
      assert Value([digit]) == n;
    } else {
      DecimalReadsBack(n / 10);
      assert Decimal(n)[..|Decimal(n)| - 1] == Decimal(n / 10);
    }
  }

  /** No two clients share a personal topic, and none is a room's. */
  lemma PersonalTopicsDiffer(id: SubId, other: SubId)
    ensures PersonalTopic(id) == PersonalTopic(other) ==> id == other
    ensures !IsRoomTopic(PersonalTopic(id))
  {
    DecimalReadsBack(id);
    DecimalReadsBack(other);
    assert PersonalTopic(id)[7..] == Decimal(id) && PersonalTopic(other)[7..] == Decimal(other);
    assert PersonalTopic(id)[0] == 'c';
  }

  /** The elements of a set, each once. */
  method Elements(s: set<string>) returns (q: seq<string>)
    ensures forall x :: x in q <==> x in s
    ensures forall i, j :: 0 <= i < j < |q| ==> q[i] != q[j]
  {
    q := [];
    var rest := s;
    while rest != {}
      invariant forall x :: x in q <==> x in s && x !in rest
      invariant rest <= s && forall i, j :: 0 <= i < j < |q| ==> q[i] != q[j]
    {
      var x :| x in rest;
      q, rest := q + [x], rest - {x};
    }
  }

  class Client {
    const id: SubId
    const bus: EventBus
    var topics: set<Name>
    var roomIDs: set<RoomId>
    /** The user of the session, once authenticated. */
    var session: Option<UserId>

    ghost function Books(): (book: Book)
      reads this
    {
      Book(topics, roomIDs)
    }

    /** The books are true: the bus holds this client under exactly these topics. */
    ghost predicate Valid()
      reads this, bus, bus.topics.Values
    {
      && bus.Valid()
      && topics == HeldBy(bus.View(), id)
      && RoomsBacked(Books())
    }

    /** Ids are drawn from a counter, so the bus does not hold this one yet. */
    constructor (id: SubId, bus: EventBus)
      requires bus.Valid() && HeldBy(bus.View(), id) == {}
      modifies bus, if PersonalTopic(id) in bus.topics then {bus.topics[PersonalTopic(id)]} else {}
      ensures Valid() && this.id == id && this.bus == bus
      ensures Books() == Book({PersonalTopic(id)}, {}) && session == None
      ensures bus.View() == Subscribed(old(bus.View()), PersonalTopic(id), id)
    {
      var own := PersonalTopic(id);
      this.id, this.bus, session := id, bus, None;
      topics, roomIDs := {own}, {};
      new;
      SubscribeChangesOne(bus.View(), own, id);
      bus.Subscribe(own, Subscriber(id, false));
    }

    /** Marks the client authenticated; its books are not touched. */
    method SetSession(u: UserId)
      requires Valid()
      modifies `session
      ensures Valid() && Books() == old(Books()) && bus.View() == old(bus.View()) && session == Some(u)
    {
      session := Some(u);
    }

    /** The locked half of Subscribe. */
    method Note(n: Name) returns (known: bool)
      modifies `topics, `roomIDs
      ensures Books() == BookSubscribe(old(Books()), n) && known == (n in old(topics))
    {
      known := n in topics;
      if !known {
        topics := topics + {n};
        if IsRoomTopic(n) {
          roomIDs := roomIDs + {TrimRoom(n)};
        }
      }
    }

    method Subscribe(n: Name)
      requires Valid()
      modifies this, bus, if n in bus.topics then {bus.topics[n]} else {}
      ensures Valid() && Books() == BookSubscribe(old(Books()), n) && session == old(session)
      ensures bus.View() == if n in old(topics) then old(bus.View()) else Subscribed(old(bus.View()), n, id)
    {
      BookKeepsRoomsBacked(Books(), n);
      ghost var before := bus.View();
      var known := Note(n);
      assert bus.Valid() && bus.View() == before;
      if !known {
        SubscribeChangesOne(before, n, id);
        bus.Subscribe(n, Subscriber(id, false));
        assert bus.View() == Subscribed(before, n, id);
      }
    }

    /** The locked half of Unsubscribe. */
    method Forget(n: Name)
      modifies `topics, `roomIDs
      ensures Books() == BookUnsubscribe(old(Books()), n)
    {
      topics := topics - {n};
      roomIDs := roomIDs - {TrimRoom(n)};
    }

    method Unsubscribe(n: Name)
      requires Valid()
      modifies this, bus, if n in bus.topics then {bus.topics[n]} else {}
      ensures Valid() && Books() == BookUnsubscribe(old(Books()), n) && session == old(session)
      ensures bus.View() == Unsubscribed(old(bus.View()), n, id)
      ensures forall m :: m in bus.topics ==> m in old(bus.topics) && bus.topics[m] == old(bus.topics[m])
    {
      BookKeepsRoomsBacked(Books(), n);
      ghost var before := bus.View();
      Forget(n);
      assert bus.Valid() && bus.View() == before;
      UnsubscribeChangesOne(before, n, id);
      bus.Unsubscribe(n, Subscriber(id, false));
      assert bus.View() == Unsubscribed(before, n, id);
    }

    /** The rooms messages are routed by. */
    method RoomIDs() returns (ids: seq<RoomId>)
      ensures forall rid :: rid in ids <==> rid in roomIDs
      ensures forall i, j :: 0 <= i < j < |ids| ==> ids[i] != ids[j]
    {
      ids := Elements(roomIDs);
    }

    method UnsubscribeAll(ns: seq<Name>)
      requires Valid()
      modifies this, bus, bus.topics.Values
      ensures Valid() && session == old(session)
      ensures Books() == BookUnsubscribeAll(old(Books()), ns)
      ensures bus.View() == UnsubscribedAll(old(bus.View()), ns, id)
    {
      for i := 0 to |ns|
        invariant Valid() && session == old(session)
        invariant Books() == BookUnsubscribeAll(old(Books()), ns[..i])
        invariant bus.View() == UnsubscribedAll(old(bus.View()), ns[..i], id)
        invariant forall m :: m in bus.topics ==> m in old(bus.topics) && bus.topics[m] == old(bus.topics[m])
      {
        Unsubscribe(ns[i]);
        assert ns[..i + 1][..i] == ns[..i];
      }
      assert ns[..|ns|] == ns;
    }

    /** The client's part of a disconnect: drop every topic it holds. */
    method Sweep()
      requires Valid()
      modifies this, bus, bus.topics.Values
      ensures Valid() && session == old(session) && Books() == Book({}, {})
      ensures HeldBy(bus.View(), id) == {}
      ensures forall x :: x != id ==> HeldBy(bus.View(), x) == old(HeldBy(bus.View(), x))
    {
      var ns := Elements(topics);
      ghost var before, book := bus.View(), Books();
      UnsubscribeAll(ns);
      SweepLeavesNothing(before, book, ns, id);
    }
  }
}
