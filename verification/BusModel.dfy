/** The event bus run one operation at a time: a map from topic to subscriber ids, no entry empty. */
module BusModel {
  import opened Base

  type Name = string
  type SubId = nat
  type Bus = map<Name, set<SubId>>

  ghost predicate NoEmptyTopic(b: Bus) {
    forall n :: n in b ==> b[n] != {}
  }

  function Members(b: Bus, n: Name): (r: set<SubId>) {
    if n in b then b[n] else {}
  }

  function Subscribed(b: Bus, n: Name, id: SubId): (after: Bus) {
    b[n := Members(b, n) + {id}]
  }

  function Unsubscribed(b: Bus, n: Name, id: SubId): (after: Bus) {
    if n !in b then b
    else if b[n] - {id} == {} then b - {n}
    else b[n := b[n] - {id}]
  }

  /** The topics that hold subscriber id. */
  function HeldBy(b: Bus, id: SubId): (r: set<Name>) {
    set n | n in b && id in b[n]
  }

  /** Storing the topic first, as the code does, makes no difference to the result. */
  lemma SubscribeStores(b: Bus, n: Name, id: SubId)
    requires NoEmptyTopic(b)
    ensures Subscribed(b[n := Members(b, n)], n, id) == Subscribed(b, n, id)
    ensures NoEmptyTopic(Subscribed(b, n, id))
  {}

  /** Each operation changes exactly one subscriber's membership of one topic. */
  lemma SubscribeChangesOne(b: Bus, n: Name, id: SubId)
    requires NoEmptyTopic(b)
    ensures NoEmptyTopic(Subscribed(b, n, id))
    ensures HeldBy(Subscribed(b, n, id), id) == HeldBy(b, id) + {n}
    ensures forall x :: x != id ==> HeldBy(Subscribed(b, n, id), x) == HeldBy(b, x)
  {}

  lemma UnsubscribeChangesOne(b: Bus, n: Name, id: SubId)
    requires NoEmptyTopic(b)
    ensures NoEmptyTopic(Unsubscribed(b, n, id))
    ensures HeldBy(Unsubscribed(b, n, id), id) == HeldBy(b, id) - {n}
    ensures forall x :: x != id ==> HeldBy(Unsubscribed(b, n, id), x) == HeldBy(b, x)
  {
    assert forall x :: x != id && n in b && x in b[n] ==> x in b[n] - {id};
  }

  /** Unsubscribe undoes Subscribe for a newcomer, down to the topic entry itself. */
  lemma UnsubscribeUndoesSubscribe(b: Bus, n: Name, id: SubId)
    requires NoEmptyTopic(b) && n !in HeldBy(b, id)
    ensures Unsubscribed(Subscribed(b, n, id), n, id) == b
  {
    assert Members(b, n) + {id} - {id} == Members(b, n);
  }

  // ---------------------------------------------------------------- a client's bookkeeping

  const ROOM_PREFIX: string := "room:"

  predicate IsRoomTopic(n: Name) {
    ROOM_PREFIX <= n
  }

  function RoomTopic(rid: RoomId): (n: Name) {
    ROOM_PREFIX + rid
  }

  /** strings.TrimPrefix(n, "room:") */
  function TrimRoom(n: Name): (r: RoomId) {
    if IsRoomTopic(n) then n[|ROOM_PREFIX|..] else n
  }

  /** The topics a client believes it is subscribed to, and the rooms it is routed by. */
  datatype Book = Book(topics: set<Name>, roomIDs: set<RoomId>)

  function BookSubscribe(k: Book, n: Name): (after: Book) {
    if n in k.topics then k
    else Book(k.topics + {n}, if IsRoomTopic(n) then k.roomIDs + {TrimRoom(n)} else k.roomIDs)
  }

  function BookUnsubscribe(k: Book, n: Name): (after: Book) {
    Book(k.topics - {n}, k.roomIDs - {TrimRoom(n)})
  }

  /** Every room id kept has its topic. */
  ghost predicate RoomsBacked(k: Book) {
    forall rid :: rid in k.roomIDs ==> RoomTopic(rid) in k.topics
  }

  /** The room ids are exactly those of the room topics. */
  ghost predicate RoomsExact(k: Book) {
    forall rid :: rid in k.roomIDs <==> RoomTopic(rid) in k.topics
  }

  lemma RoomTopicInjective(n: Name, rid: RoomId)
    ensures RoomTopic(rid) == n <==> IsRoomTopic(n) && TrimRoom(n) == rid
  {
    if IsRoomTopic(n) {
      assert n == n[..|ROOM_PREFIX|] + n[|ROOM_PREFIX|..];
    }
    if RoomTopic(rid) == n {
      assert RoomTopic(rid)[|ROOM_PREFIX|..] == rid;
    }
  }

  lemma BookKeepsRoomsBacked(k: Book, n: Name)
    requires RoomsBacked(k)
    ensures RoomsBacked(BookSubscribe(k, n)) && RoomsBacked(BookUnsubscribe(k, n))
  {
    forall rid ensures RoomTopic(rid) == n <==> IsRoomTopic(n) && TrimRoom(n) == rid {
      RoomTopicInjective(n, rid);
    }
  }

  lemma SubscribeKeepsRoomsExact(k: Book, n: Name)
    requires RoomsExact(k)
    ensures RoomsExact(BookSubscribe(k, n))
  {
    forall rid ensures RoomTopic(rid) == n <==> IsRoomTopic(n) && TrimRoom(n) == rid {
      RoomTopicInjective(n, rid);
    }
  }

  /**
   Unsubscribing keeps the room ids exact if and only if the topic is a room topic, or is not the
   bare id of a room the client is subscribed to: that one drops the id and keeps the topic.
   */
  lemma UnsubscribeKeepsRoomsExactIff(k: Book, n: Name)
    requires RoomsExact(k)
    ensures RoomsExact(BookUnsubscribe(k, n)) <==> IsRoomTopic(n) || RoomTopic(n) !in k.topics
  {
    forall rid ensures RoomTopic(rid) == n <==> IsRoomTopic(n) && TrimRoom(n) == rid {
      RoomTopicInjective(n, rid);
    }
    var k' := BookUnsubscribe(k, n);
    if !IsRoomTopic(n) && RoomTopic(n) in k.topics {
      assert RoomTopic(n) in k'.topics && n !in k'.roomIDs;
    }
  }

  /** Unsubscribing from each topic of a list in turn: on the bus, and in the client's book. */
  function UnsubscribedAll(b: Bus, ns: seq<Name>, id: SubId): (after: Bus) {
    if ns == [] then b else Unsubscribed(UnsubscribedAll(b, ns[..|ns| - 1], id), ns[|ns| - 1], id)
  }

  function BookUnsubscribeAll(k: Book, ns: seq<Name>): (after: Book) {
    if ns == [] then k else BookUnsubscribe(BookUnsubscribeAll(k, ns[..|ns| - 1]), ns[|ns| - 1])
  }

  lemma {:induction false} UnsubscribedAllDropsOnlyThose(b: Bus, ns: seq<Name>, id: SubId)
    requires NoEmptyTopic(b)
    ensures var b' := UnsubscribedAll(b, ns, id);
            && NoEmptyTopic(b')
            && (forall n :: n in HeldBy(b', id) <==> n in HeldBy(b, id) && n !in ns)
            && (forall x :: x != id ==> HeldBy(b', x) == HeldBy(b, x))
  {
    if ns == [] {
    } else {
      UnsubscribedAllDropsOnlyThose(b, ns[..|ns| - 1], id);
      UnsubscribeChangesOne(UnsubscribedAll(b, ns[..|ns| - 1], id), ns[|ns| - 1], id);
      assert ns == ns[..|ns| - 1] + [ns[|ns| - 1]];
    }
  }

  lemma {:induction false} BookUnsubscribeAllDropsThose(k: Book, ns: seq<Name>)
    requires RoomsBacked(k)
    ensures var k' := BookUnsubscribeAll(k, ns);
            RoomsBacked(k') && forall n :: n in k'.topics <==> n in k.topics && n !in ns
  {
    if ns == [] {
    } else {
      BookUnsubscribeAllDropsThose(k, ns[..|ns| - 1]);
      BookKeepsRoomsBacked(BookUnsubscribeAll(k, ns[..|ns| - 1]), ns[|ns| - 1]);
      assert ns == ns[..|ns| - 1] + [ns[|ns| - 1]];
    }
  }

  /** Dropping every topic a client holds empties its book and takes it, and nobody else, off the bus. */
  lemma SweepLeavesNothing(b: Bus, k: Book, ns: seq<Name>, id: SubId)
    requires NoEmptyTopic(b) && k.topics == HeldBy(b, id) && RoomsBacked(k)
    requires forall n :: n in k.topics ==> n in ns
    ensures BookUnsubscribeAll(k, ns) == Book({}, {})
    ensures HeldBy(UnsubscribedAll(b, ns, id), id) == {}
    ensures forall x :: x != id ==> HeldBy(UnsubscribedAll(b, ns, id), x) == HeldBy(b, x)
  {
    UnsubscribedAllDropsOnlyThose(b, ns, id);
    BookUnsubscribeAllDropsThose(k, ns);
    var k' := BookUnsubscribeAll(k, ns);
    assert forall rid :: rid in k'.roomIDs ==> RoomTopic(rid) in k'.topics;
  }

  // ---------------------------------------------------------------- runs of many clients

  datatype Hub = Hub(bus: Bus, books: map<SubId, Book>)

  /** What a connection does to the bus; order is the order its topics come out of the map. */
  datatype HubStep =
    | Connect(id: SubId, own: Name)
    | DoSubscribe(id: SubId, n: Name)
    | DoUnsubscribe(id: SubId, n: Name)
    | Disconnect(id: SubId, order: seq<Name>)

  /** Connections use a fresh id, requests come from connected clients, a sweep covers the client's topics. */
  predicate Allowed(s: Hub, v: HubStep) {
    match v
    case Connect(id, own) => id !in s.books
    case DoSubscribe(id, n) => id in s.books
    case DoUnsubscribe(id, n) => id in s.books
    case Disconnect(id, order) => id in s.books && forall n :: n in s.books[id].topics ==> n in order
  }

  function After(s: Hub, v: HubStep): (after: Hub)
    requires Allowed(s, v)
  {
    match v
    case Connect(id, own) => Hub(Subscribed(s.bus, own, id), s.books[id := Book({own}, {})])
    case DoSubscribe(id, n) =>
      Hub(if n in s.books[id].topics then s.bus else Subscribed(s.bus, n, id),
            s.books[id := BookSubscribe(s.books[id], n)])
    case DoUnsubscribe(id, n) => Hub(Unsubscribed(s.bus, n, id), s.books[id := BookUnsubscribe(s.books[id], n)])
    case Disconnect(id, order) => Hub(UnsubscribedAll(s.bus, order, id), s.books - {id})
  }

  ghost predicate Reachable(s: Hub, vs: seq<HubStep>, s': Hub)
    decreases |vs|
  {
    if vs == [] then s' == s else Allowed(s, vs[0]) && Reachable(After(s, vs[0]), vs[1..], s')
  }

  /** What the bus holds of each client is what its book says, and nothing of a client that is gone. */
  ghost predicate BooksTrue(s: Hub) {
    && NoEmptyTopic(s.bus)
    && (forall id :: id in s.books ==> HeldBy(s.bus, id) == s.books[id].topics && RoomsBacked(s.books[id]))
    && (forall id :: id !in s.books ==> HeldBy(s.bus, id) == {})
  }

  lemma HubStepKeepsBooksTrue(s: Hub, v: HubStep)
    requires BooksTrue(s) && Allowed(s, v)
    ensures BooksTrue(After(s, v))
  {
    match v
    case Connect(id, own) => SubscribeChangesOne(s.bus, own, id);
    case DoSubscribe(id, n) =>
      SubscribeChangesOne(s.bus, n, id);
      BookKeepsRoomsBacked(s.books[id], n);
    case DoUnsubscribe(id, n) =>
      UnsubscribeChangesOne(s.bus, n, id);
      BookKeepsRoomsBacked(s.books[id], n);
    case Disconnect(id, order) =>
      UnsubscribedAllDropsOnlyThose(s.bus, order, id);
      SweepLeavesNothing(s.bus, s.books[id], order, id);
  }

  lemma {:induction false} RunKeepsBooksTrue(s: Hub, vs: seq<HubStep>, s': Hub)
    requires BooksTrue(s) && Reachable(s, vs, s')
    ensures BooksTrue(s')
    decreases |vs|
  {
    if vs == [] {
    } else {
      HubStepKeepsBooksTrue(s, vs[0]);
      RunKeepsBooksTrue(After(s, vs[0]), vs[1..], s');
    }
  }

  /**
   Over every run of connections one operation at a time, each client's topics are exactly the bus
   topics that hold it, every room id it is routed by has its topic, and a client that has
   disconnected is held nowhere.
   */
  lemma BooksMatchTheBus(vs: seq<HubStep>, s: Hub, id: SubId)
    requires Reachable(Hub(map[], map[]), vs, s)
    ensures id in s.books ==> s.books[id].topics == HeldBy(s.bus, id)
    ensures id in s.books ==> forall rid :: rid in s.books[id].roomIDs ==> RoomTopic(rid) in s.books[id].topics
    ensures id !in s.books ==> HeldBy(s.bus, id) == {}
  {
    RunKeepsBooksTrue(Hub(map[], map[]), vs, s);
  }
}
