/**
 One client's requests in sequence, between other clients' requests: when the rooms it is routed
 by cover the seats it holds, which is what its disconnect relies on.
 */
module Connection {
  import opened Base
  import opened RoomModel
  import opened SessionTable
  import opened BusModel
  import opened Dispatcher
  import opened ManagerModel

  /** The manager's maps and the client's books. */
  datatype Link = Link(table: Table, book: Book)

  /** What the client asks for, or anything else that happens in the manager. */
  datatype Call =
    | CallJoin(rid: RoomId, h: Hooks)
    | CallCreate(rid: RoomId, config: Config, keep: bool, h: Hooks)
    | CallLeave(rid: RoomId, onLeave: seq<bool>)
    | CallSubscribe(topic: Name)
    | CallUnsubscribe(topic: Name)
    | Elsewhere(q: Request)

  /** New rooms have fresh ids, and nobody else acts as this client. */
  ghost predicate Proper(t: Table, c: ClientId, call: Call) {
    match call
    case CallCreate(rid, _, _, _) => rid !in t.rooms
    case Elsewhere(q) => (q.Join? || q.Leave?) ==> q.c != c
    case _ => true
  }

  /** The handlers turn these down before they do anything. */
  predicate Malformed(call: Call) {
    match call
    case CallJoin(rid, _) => rid == ""
    case CallCreate(_, config, _, _) => config.typ == ""
    case CallLeave(rid, _) => rid == ""
    case _ => false
  }

  /** The join handler subscribes first, and takes that back when the join fails. */
  function AnswerJoin(l: Link, u: UserId, c: ClientId, rid: RoomId, h: Hooks): (after: Link) {
    var book := BookSubscribe(l.book, RoomTopic(rid));
    var (table, err) := JoinRoom(l.table, u, c, rid, h);
    Link(table, if err.Some? then BookUnsubscribe(book, RoomTopic(rid)) else book)
  }

  ghost function Answer(l: Link, owner: ClientId -> UserId, c: ClientId, call: Call): (after: Link) {
    if Malformed(call) then l else
    match call
    case CallJoin(rid, h) => AnswerJoin(l, owner(c), c, rid, h)
    case CallCreate(rid, config, keep, h) =>
      var created := l.(table := CreateRoom(l.table, rid, config, keep));
      var joined := AnswerJoin(created, owner(c), c, rid, h);
      if JoinRoom(created.table, owner(c), c, rid, h).1.Some? then joined.(table := RemoveRoom(joined.table, rid))
      else joined
    case CallLeave(rid, onLeave) =>
      Link(LeaveRoom(l.table, owner(c), c, rid, onLeave), BookUnsubscribe(l.book, RoomTopic(rid)))
    case CallSubscribe(n) => l.(book := BookSubscribe(l.book, n))
    case CallUnsubscribe(n) => l.(book := BookUnsubscribe(l.book, n))
    case Elsewhere(q) => l.(table := Serve(l.table, owner, q))
  }

  predicate SitsIn(t: Table, c: ClientId, rid: RoomId) {
    rid in t.rooms && c in t.rooms[rid].players
  }

  ghost predicate SeatedNowhere(t: Table, c: ClientId) {
    forall rid :: !SitsIn(t, c, rid)
  }

  /** Every room the client sits in is one it is routed by. */
  ghost predicate Routed(l: Link, c: ClientId) {
    forall rid :: SitsIn(l.table, c, rid) ==> rid in l.book.roomIDs
  }

  /** The join succeeds. */
  predicate Joins(t: Table, u: UserId, c: ClientId, rid: RoomId, h: Hooks) {
    JoinRoom(t, u, c, rid, h).1.None?
  }

  /** Joining this room leaves the client with a seat in it, and no route to it. */
  predicate JoinsUnrouted(l: Link, u: UserId, c: ClientId, rid: RoomId, h: Hooks) {
    if Joins(l.table, u, c, rid, h) then RoomTopic(rid) in l.book.topics && rid !in l.book.roomIDs
    else SitsIn(l.table, c, rid)
  }

  /**
   The calls that lose the route to a seat: unsubscribing from the topic of a room the client sits
   in, or from its bare id; being refused a rejoin; and joining a room whose topic is still held
   while its id was dropped, since the books then take the subscription for granted.
   */
  ghost predicate Unroutes(l: Link, u: UserId, c: ClientId, call: Call) {
    !Malformed(call) &&
    match call
    case CallUnsubscribe(n) => SitsIn(l.table, c, TrimRoom(n))
    case CallJoin(rid, h) => JoinsUnrouted(l, u, c, rid, h)
    case CallCreate(rid, config, keep, h) =>
      Joins(CreateRoom(l.table, rid, config, keep), u, c, rid, h)
      && RoomTopic(rid) in l.book.topics && rid !in l.book.roomIDs
    case _ => false
  }

  lemma TrimUndoesTopic(rid: RoomId)
    ensures IsRoomTopic(RoomTopic(rid)) && TrimRoom(RoomTopic(rid)) == rid
  {
    RoomTopicInjective(RoomTopic(rid), rid);
  }

  /** Where the client sits after a join: nowhere new but in the target. */
  lemma SeatsAfterJoin(t: Table, u: UserId, c: ClientId, rid: RoomId, h: Hooks)
    requires AllWithinCapacity(t)
    ensures var t' := JoinRoom(t, u, c, rid, h).0;
            && AllWithinCapacity(t')
            && (Joins(t, u, c, rid, h) ==> SitsIn(t', c, rid))
            && (!Joins(t, u, c, rid, h) ==> t'.rooms == t.rooms)
            && (forall x :: SitsIn(t', c, x) ==> SitsIn(t, c, x) || (Joins(t, u, c, rid, h) && x == rid))
  {
    JoinErrorsExactly(t, u, c, rid, h);
    JoinSeatsOnlyItsClient(t, u, c, rid, h);
    JoinLeavesOthers(t, u, c, rid, h);
  }

  lemma KickSeatsNobody(t: Table, rid: RoomId, replaced: Option<Session>, onKick: seq<bool>, c: ClientId)
    ensures forall x :: SitsIn(Kick(t, rid, replaced, onKick), c, x) ==> SitsIn(t, c, x)
  {
    if replaced.Some? && replaced.value.room in t.rooms {
      LeaveInRoomFrame(t.rooms[replaced.value.room], replaced.value.client, onKick);
    }
  }

  /** A join seats its client in no other room than the target. */
  lemma JoinLeavesOthers(t: Table, u: UserId, c: ClientId, rid: RoomId, h: Hooks)
    ensures forall x :: x != rid && SitsIn(JoinRoom(t, u, c, rid, h).0, c, x) ==> SitsIn(t, c, x)
  {
    if rid in t.rooms && Admit(t.sessions, u, c, rid, t.rooms[rid].config).Admitted? {
      var Admitted(sessions, replaced) := Admit(t.sessions, u, c, rid, t.rooms[rid].config);
      var a := JoinActionFor(rid, replaced, u, c, h);
      var t1 := Table(t.rooms[rid := RoomAfterJoin(t.rooms[rid], a)], sessions);
      KickSeatsNobody(t1, rid, replaced, h.onKick, c);
      assert forall x :: x != rid && SitsIn(t1, c, x) ==> SitsIn(t, c, x);
    }
  }

  lemma JoinUnroutes(l: Link, u: UserId, c: ClientId, rid: RoomId, h: Hooks)
    requires AllWithinCapacity(l.table) && Routed(l, c)
    ensures Routed(AnswerJoin(l, u, c, rid, h), c) <==> !JoinsUnrouted(l, u, c, rid, h)
  {
    var l' := AnswerJoin(l, u, c, rid, h);
    SeatsAfterJoin(l.table, u, c, rid, h);
    TrimUndoesTopic(rid);
    if JoinsUnrouted(l, u, c, rid, h) {
      assert SitsIn(l'.table, c, rid) && rid !in l'.book.roomIDs;
    }
  }

  lemma CreateUnroutes(l: Link, owner: ClientId -> UserId, c: ClientId, rid: RoomId, config: Config, keep: bool,
                       h: Hooks)
    requires AllWithinCapacity(l.table) && Routed(l, c) && rid !in l.table.rooms && config.typ != ""
    ensures var call := CallCreate(rid, config, keep, h);
            Routed(Answer(l, owner, c, call), c) <==> !Unroutes(l, owner(c), c, call)
  {
    var created := l.(table := CreateRoom(l.table, rid, config, keep));
    assert forall x :: SitsIn(created.table, c, x) ==> SitsIn(l.table, c, x);
    SeatsAfterJoin(created.table, owner(c), c, rid, h);
    JoinUnroutes(created, owner(c), c, rid, h);
    TrimUndoesTopic(rid);
    var l' := Answer(l, owner, c, CallCreate(rid, config, keep, h));
    if !Joins(created.table, owner(c), c, rid, h) {
      forall x | SitsIn(l'.table, c, x) ensures x in l'.book.roomIDs {
        assert x != rid && SitsIn(l.table, c, x);
      }
    }
  }

  lemma LeaveKeepsRouted(l: Link, owner: ClientId -> UserId, c: ClientId, rid: RoomId, onLeave: seq<bool>)
    requires Routed(l, c)
    ensures Routed(Answer(l, owner, c, CallLeave(rid, onLeave)), c)
  {
    TrimUndoesTopic(rid);
    if rid in l.table.rooms {
      LeaveInRoomFrame(l.table.rooms[rid], c, onLeave);
    }
  }

  lemma ElsewhereKeepsRouted(l: Link, owner: ClientId -> UserId, c: ClientId, q: Request)
    requires AllWithinCapacity(l.table) && Routed(l, c) && Proper(l.table, c, Elsewhere(q))
    ensures Routed(Answer(l, owner, c, Elsewhere(q)), c)
  {
    ServeSeatsOnlyItsClient(l.table, owner, q, c);
  }

  /** A request of somebody else seats this client nowhere new. */
  lemma ServeSeatsOnlyItsClient(t: Table, owner: ClientId -> UserId, q: Request, c: ClientId)
    requires AllWithinCapacity(t) && (q.Join? ==> q.c != c)
    ensures forall rid :: SitsIn(Serve(t, owner, q), c, rid) ==> SitsIn(t, c, rid)
  {
    match q
    case Join(d, rid, h) => JoinSeatsOnlyItsClient(t, owner(d), d, rid, h);
    case Leave(d, rid, onLeave) => LeaveSeatsNobody(t, owner(d), d, rid, onLeave);
    case _ =>
  }

  /** A client whose seats are all routed loses a route exactly by one of those calls. */
  lemma CallUnroutesExactly(l: Link, owner: ClientId -> UserId, c: ClientId, call: Call)
    requires AllWithinCapacity(l.table) && Routed(l, c) && Proper(l.table, c, call)
    ensures Routed(Answer(l, owner, c, call), c) <==> !Unroutes(l, owner(c), c, call)
  {
    if Malformed(call) {
      return;
    }
    match call
    case CallJoin(rid, h) => JoinUnroutes(l, owner(c), c, rid, h);
    case CallCreate(rid, config, keep, h) => CreateUnroutes(l, owner, c, rid, config, keep, h);
    case CallLeave(rid, onLeave) => LeaveKeepsRouted(l, owner, c, rid, onLeave);
    case CallSubscribe(n) =>
    case CallUnsubscribe(n) =>
      var l' := Answer(l, owner, c, call);
      if Unroutes(l, owner(c), c, call) {
        assert SitsIn(l'.table, c, TrimRoom(n)) && TrimRoom(n) !in l'.book.roomIDs;
      }
    case Elsewhere(q) => ElsewhereKeepsRouted(l, owner, c, q);
  }

  lemma CallKeepsCapacity(l: Link, owner: ClientId -> UserId, c: ClientId, call: Call)
    requires AllWithinCapacity(l.table) && Proper(l.table, c, call)
    ensures AllWithinCapacity(Answer(l, owner, c, call).table)
  {
    if Malformed(call) {
      return;
    }
    match call
    case CallJoin(rid, h) => SeatsAfterJoin(l.table, owner(c), c, rid, h);
    case CallCreate(rid, config, keep, h) =>
      SeatsAfterJoin(CreateRoom(l.table, rid, config, keep), owner(c), c, rid, h);
    case CallLeave(rid, onLeave) => LeaveSeatsNobody(l.table, owner(c), c, rid, onLeave);
    case Elsewhere(q) => ServeFrame(l.table, owner, q);
    case _ =>
  }

  // ---------------------------------------------------------------- what each call leaves behind

  /** A request without a room id, or for a room without a type, is refused before it does anything. */
  lemma EmptyNamesAreRefused(l: Link, owner: ClientId -> UserId, c: ClientId, rid: RoomId, config: Config, keep: bool,
                             h: Hooks, onLeave: seq<bool>)
    ensures Answer(l, owner, c, CallJoin("", h)) == l && Answer(l, owner, c, CallLeave("", onLeave)) == l
    ensures config.typ == "" ==> Answer(l, owner, c, CallCreate(rid, config, keep, h)) == l
  {}

  /** A join ends with the seat and its topic, or with the rooms as they were and without the topic. */
  lemma JoinLeavesBehind(l: Link, owner: ClientId -> UserId, c: ClientId, rid: RoomId, h: Hooks)
    requires AllWithinCapacity(l.table) && rid != ""
    ensures var l' := Answer(l, owner, c, CallJoin(rid, h));
            if Joins(l.table, owner(c), c, rid, h)
            then SitsIn(l'.table, c, rid) && l'.book.topics == l.book.topics + {"room:" + rid}
            else
              && l'.table.rooms == l.table.rooms && l'.book.topics == l.book.topics - {"room:" + rid}
              && l'.book.roomIDs == l.book.roomIDs - {rid}
  {
    SeatsAfterJoin(l.table, owner(c), c, rid, h);
    TrimUndoesTopic(rid);
  }

  ghost predicate NoRecordOf(ss: Sessions, t: RoomType, rid: RoomId) {
    forall u :: Lookup(ss, u, t).Some? ==> Lookup(ss, u, t).value.room != rid
  }

  /** A new room refuses its creator exactly if it rejects and the creator is recorded in a room of its type. */
  lemma CreatorRefusedExactly(t: Table, u: UserId, c: ClientId, rid: RoomId, config: Config, keep: bool, h: Hooks)
    requires NoRecordOf(t.sessions, config.typ, rid)
    ensures var created := CreateRoom(t, rid, config, keep);
            && (Joins(created, u, c, rid, h) <==> !(config.mode == Reject && Lookup(t.sessions, u, config.typ).Some?))
            && (!Joins(created, u, c, rid, h) ==> JoinRoom(created, u, c, rid, h).0 == created)
  {}

  /** Removing a room just created undoes the creation. */
  lemma RemovalUndoesCreation(t: Table, rid: RoomId, config: Config, keep: bool)
    requires rid !in t.rooms && NoRecordOf(t.sessions, config.typ, rid)
    ensures RemoveRoom(CreateRoom(t, rid, config, keep), rid) == t
  {
    assert CreateRoom(t, rid, config, keep).rooms - {rid} == t.rooms;
    var ss := Cleanup(t.sessions, config.typ, rid);
    forall u | u in t.sessions ensures u in ss && ss[u] == t.sessions[u] {
      assert Lookup(t.sessions, u, config.typ).Some? ==> Lookup(t.sessions, u, config.typ).value.room != rid;
    }
  }

  /**
   A create ends with the new room, its creator in it and the topic; or, exactly if the room rejects and
   its creator is recorded in one of its type already, with the rooms and records as they were.
   */
  lemma CreateLeavesBehind(l: Link, owner: ClientId -> UserId, c: ClientId, rid: RoomId, config: Config, keep: bool,
                           h: Hooks)
    requires AllWithinCapacity(l.table) && config.typ != ""
    requires rid !in l.table.rooms && NoRecordOf(l.table.sessions, config.typ, rid)
    ensures var l' := Answer(l, owner, c, CallCreate(rid, config, keep, h));
            if config.mode == Reject && Lookup(l.table.sessions, owner(c), config.typ).Some?
            then
              && l'.table == l.table
              && l'.book.topics == l.book.topics - {"room:" + rid} && l'.book.roomIDs == l.book.roomIDs - {rid}
            else SitsIn(l'.table, c, rid) && l'.book.topics == l.book.topics + {"room:" + rid}
  {
    var created := CreateRoom(l.table, rid, config, keep);
    SeatsAfterJoin(created, owner(c), c, rid, h);
    CreatorRefusedExactly(l.table, owner(c), c, rid, config, keep, h);
    TrimUndoesTopic(rid);
    RemovalUndoesCreation(l.table, rid, config, keep);
  }

  /** A leave ends without the seat, the topic and the route. */
  lemma LeaveLeavesBehind(l: Link, owner: ClientId -> UserId, c: ClientId, rid: RoomId, onLeave: seq<bool>)
    requires rid != ""
    ensures var l' := Answer(l, owner, c, CallLeave(rid, onLeave));
            && !SitsIn(l'.table, c, rid) && l'.table.rooms.Keys == l.table.rooms.Keys
            && l'.book.topics == l.book.topics - {"room:" + rid} && l'.book.roomIDs == l.book.roomIDs - {rid}
  {
    TrimUndoesTopic(rid);
    if rid in l.table.rooms {
      LeaveInRoomFrame(l.table.rooms[rid], c, onLeave);
    }
  }

  // ---------------------------------------------------------------- over whole runs

  ghost function AnswerAll(l: Link, owner: ClientId -> UserId, c: ClientId, calls: seq<Call>): (after: Link)
    decreases |calls|
  {
    if calls == [] then l else AnswerAll(Answer(l, owner, c, calls[0]), owner, c, calls[1..])
  }

  ghost predicate AllProper(l: Link, owner: ClientId -> UserId, c: ClientId, calls: seq<Call>)
    decreases |calls|
  {
    calls == [] || (Proper(l.table, c, calls[0]) && AllProper(Answer(l, owner, c, calls[0]), owner, c, calls[1..]))
  }

  ghost predicate AlwaysRouted(l: Link, owner: ClientId -> UserId, c: ClientId, calls: seq<Call>)
    decreases |calls|
  {
    Routed(l, c) && (calls == [] || AlwaysRouted(Answer(l, owner, c, calls[0]), owner, c, calls[1..]))
  }

  ghost predicate NeverUnroutes(l: Link, owner: ClientId -> UserId, c: ClientId, calls: seq<Call>)
    decreases |calls|
  {
    calls == [] ||
    (!Unroutes(l, owner(c), c, calls[0]) && NeverUnroutes(Answer(l, owner, c, calls[0]), owner, c, calls[1..]))
  }

  /**
   Over every run of calls, the client's seats stay routed throughout if and only if it never
   makes one of the calls that lose a route.
   */
  lemma {:induction false} RoutedExactly(l: Link, owner: ClientId -> UserId, c: ClientId, calls: seq<Call>)
    requires AllWithinCapacity(l.table) && Routed(l, c) && AllProper(l, owner, c, calls)
    ensures AlwaysRouted(l, owner, c, calls) <==> NeverUnroutes(l, owner, c, calls)
    ensures NeverUnroutes(l, owner, c, calls) ==> Routed(AnswerAll(l, owner, c, calls), c)
    decreases |calls|
  {
    if calls == [] {
    } else {
      CallUnroutesExactly(l, owner, c, calls[0]);
      CallKeepsCapacity(l, owner, c, calls[0]);
      if Routed(Answer(l, owner, c, calls[0]), c) {
        RoutedExactly(Answer(l, owner, c, calls[0]), owner, c, calls[1..]);
      }
    }
  }

  /** The leave loop of a disconnect leaves the client seated nowhere if and only if its seats are routed. */
  lemma SweepExactly(l: Link, u: UserId, c: ClientId, order: seq<RoomId>, onLeave: LeaveHooks)
    requires forall rid :: rid in order <==> rid in l.book.roomIDs
    ensures SeatedNowhere(LeaveAll(l.table, u, c, order, onLeave), c) <==> Routed(l, c)
  {
    var t' := LeaveAll(l.table, u, c, order, onLeave);
    LeaveAllLeavesExactly(l.table, u, c, order, onLeave);
    forall rid ensures SitsIn(t', c, rid) <==> SitsIn(l.table, c, rid) && rid !in order {
      if rid in l.table.rooms {
        assert rid in t'.rooms;
      }
    }
    if SeatedNowhere(t', c) {
      forall rid | SitsIn(l.table, c, rid) ensures rid in l.book.roomIDs {
        assert !SitsIn(t', c, rid);
      }
    }
    if Routed(l, c) {
      forall rid ensures !SitsIn(t', c, rid) {
        assert SitsIn(l.table, c, rid) ==> rid in order;
      }
    }
  }

  /** A client that never makes such a call is seated nowhere after it disconnects. */
  lemma DisconnectAfterRun(owner: ClientId -> UserId, t: Table, own: Name, c: ClientId, calls: seq<Call>,
                           order: seq<RoomId>, onLeave: LeaveHooks)
    requires AllWithinCapacity(t) && SeatedNowhere(t, c)
    requires var l := Link(t, Book({own}, {}));
             && AllProper(l, owner, c, calls) && NeverUnroutes(l, owner, c, calls)
             && forall rid :: rid in order <==> rid in AnswerAll(l, owner, c, calls).book.roomIDs
    ensures var t' := AnswerAll(Link(t, Book({own}, {})), owner, c, calls).table;
            SeatedNowhere(LeaveAll(t', owner(c), c, order, onLeave), c)
  {
    var l := Link(t, Book({own}, {}));
    RoutedExactly(l, owner, c, calls);
    SweepExactly(AnswerAll(l, owner, c, calls), owner(c), c, order, onLeave);
  }

  /** A client that creates a room and unsubscribes from its topic keeps the seat and loses the route. */
  lemma SeatLeftBehindFromScratch(owner: ClientId -> UserId, c: ClientId)
    ensures var calls := [CallCreate("a", Config("t", 0, Allow, 0), false, NO_HOOKS), CallUnsubscribe(RoomTopic("a"))];
            var l := AnswerAll(Link(Table(map[], map[]), Book({}, {})), owner, c, calls);
            SitsIn(l.table, c, "a") && "a" !in l.book.roomIDs
  {
    var l0 := Link(Table(map[], map[]), Book({}, {}));
    var create := CallCreate("a", Config("t", 0, Allow, 0), false, NO_HOOKS);
    var unsubscribe := CallUnsubscribe(RoomTopic("a"));
    var t := CreateRoom(l0.table, "a", Config("t", 0, Allow, 0), false);
    JoinErrorsExactly(t, owner(c), c, "a", NO_HOOKS);
    var l1 := Answer(l0, owner, c, create);
    var l2 := Answer(l1, owner, c, unsubscribe);
    TrimUndoesTopic("a");
    assert SitsIn(l2.table, c, "a");
    assert [create, unsubscribe][1..] == [unsubscribe] && [unsubscribe][1..] == [];
    assert AnswerAll(l1, owner, c, [unsubscribe]) == l2;
    assert AnswerAll(l0, owner, c, [create, unsubscribe]) == l2;
  }
}
