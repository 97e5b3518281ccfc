/** The sweep of a disconnected client: leave the rooms it is routed by, then drop its topics. */
module Dispatcher {
  import opened Base
  import opened RoomModel
  import opened SessionTable
  import opened BusModel
  import opened Client
  import opened Manager
  import Spec = ManagerModel

  /** The hooks each room's OnLeave runs. */
  type LeaveHooks = RoomId -> seq<bool>

  function LeaveAll(t: Spec.Table, u: UserId, c: ClientId, rids: seq<RoomId>,
                    onLeave: LeaveHooks): (after: Spec.Table) {
    if rids == [] then t
    else
      var rid := rids[|rids| - 1];
      Spec.LeaveRoom(LeaveAll(t, u, c, rids[..|rids| - 1], onLeave), u, c, rid, onLeave(rid))
  }

  /** c is taken out of the listed rooms; every other seat and room stays. */
  ghost predicate LeftExactly(t: Spec.Table, t': Spec.Table, c: ClientId, rids: seq<RoomId>) {
    && t'.rooms.Keys == t.rooms.Keys
    && (forall rid :: rid in t.rooms && rid !in rids ==> t'.rooms[rid] == t.rooms[rid])
    && (forall rid :: rid in t.rooms && rid in rids ==> t'.rooms[rid].players == t.rooms[rid].players - {c})
  }

  lemma {:induction false} LeaveAllLeavesExactly(
      t: Spec.Table, u: UserId, c: ClientId, rids: seq<RoomId>, onLeave: LeaveHooks)
    ensures LeftExactly(t, LeaveAll(t, u, c, rids, onLeave), c, rids)
  {
    if rids == [] {
    } else {
      var before, rid := rids[..|rids| - 1], rids[|rids| - 1];
      assert rids == before + [rid];
      LeaveAllLeavesExactly(t, u, c, before, onLeave);
      var t1 := LeaveAll(t, u, c, before, onLeave);
      if rid in t1.rooms {
        Spec.LeaveInRoomFrame(t1.rooms[rid], c, onLeave(rid));
      }
    }
  }

  /** Each listed room is left once, by an ordinary leave with the hook of that room. */
  lemma {:induction false} LeaveAllLeavesEach(
      t: Spec.Table, u: UserId, c: ClientId, rids: seq<RoomId>, onLeave: LeaveHooks, rid: RoomId)
    requires forall i, j :: 0 <= i < j < |rids| ==> rids[i] != rids[j]
    requires rid in t.rooms
    ensures var t' := LeaveAll(t, u, c, rids, onLeave);
            && rid in t'.rooms
            && t'.rooms[rid] == if rid in rids then Spec.LeaveInRoom(t.rooms[rid], c, onLeave(rid)) else t.rooms[rid]
  {
    if rids == [] {
    } else {
      var before, last := rids[..|rids| - 1], rids[|rids| - 1];
      assert rids == before + [last];
      LeaveAllLeavesEach(t, u, c, before, onLeave, rid);
    }
  }

  lemma {:induction false} LeaveAllKeepsAgree(
      t: Spec.Table, u: UserId, c: ClientId, rids: seq<RoomId>, onLeave: LeaveHooks)
    requires Spec.Agree(t) && Spec.BelongsTo(t, c, u)
    ensures Spec.Agree(LeaveAll(t, u, c, rids, onLeave))
  {
    if rids == [] {
    } else {
      var before, rid := rids[..|rids| - 1], rids[|rids| - 1];
      LeaveAllKeepsAgree(t, u, c, before, onLeave);
      LeaveAllLeavesExactly(t, u, c, before, onLeave);
      var t1 := LeaveAll(t, u, c, before, onLeave);
      assert forall r :: r in t1.rooms && c in t1.rooms[r].players ==> t1.rooms[r].players[c] == t.rooms[r].players[c];
      Spec.LeaveKeepsAgree(t1, u, c, rid, onLeave(rid));
    }
  }

  /** Client c sits nowhere, and no record names it. */
  ghost predicate Gone(t: Spec.Table, c: ClientId) {
    && (forall rid :: rid in t.rooms ==> c !in t.rooms[rid].players)
    && (forall u, w :: Lookup(t.sessions, u, w).Some? ==> Lookup(t.sessions, u, w).value.client != c)
  }

  /**
   The sweep takes a client out of exactly the listed rooms and keeps records and seats in
   agreement; it leaves no seat and no record of the client if and only if the list covered every
   room the client sat in.
   */
  lemma SweepOfSeats(t: Spec.Table, u: UserId, c: ClientId, rids: seq<RoomId>, onLeave: LeaveHooks)
    requires Spec.Agree(t) && Spec.BelongsTo(t, c, u)
    ensures var t' := LeaveAll(t, u, c, rids, onLeave);
            && Spec.Agree(t') && LeftExactly(t, t', c, rids)
            && (Gone(t', c) <==> forall rid :: rid in t.rooms && c in t.rooms[rid].players ==> rid in rids)
  {
    var t' := LeaveAll(t, u, c, rids, onLeave);
    LeaveAllLeavesExactly(t, u, c, rids, onLeave);
    LeaveAllKeepsAgree(t, u, c, rids, onLeave);
    forall v, w | Lookup(t'.sessions, v, w).Some? && Lookup(t'.sessions, v, w).value.client == c
      ensures exists rid :: rid in t'.rooms && c in t'.rooms[rid].players
    {
      assert Spec.HasSeat(t', v, w, Lookup(t'.sessions, v, w).value);
    }
  }

  /** What a disconnect makes of the manager's maps; without a session it leaves no room. */
  function Disconnected(t: Spec.Table, session: Option<UserId>, c: ClientId, order: seq<RoomId>, onLeave: LeaveHooks)
    : (after: Spec.Table)
  {
    if session.Some? then LeaveAll(t, session.value, c, order, onLeave) else t
  }

  /** The client is authenticated and routed by every room it sits in, or sits nowhere. */
  ghost predicate CanLeaveAll(t: Spec.Table, session: Option<UserId>, c: ClientId, ids: set<RoomId>) {
    forall rid :: rid in t.rooms && c in t.rooms[rid].players ==> session.Some? && rid in ids
  }

  /** A disconnect keeps records and seats in agreement, and leaves nothing of the client exactly then. */
  lemma DisconnectOfSeats(t: Spec.Table, session: Option<UserId>, c: ClientId, ids: set<RoomId>,
                          order: seq<RoomId>, onLeave: LeaveHooks)
    requires Spec.Agree(t) && (session.Some? ==> Spec.BelongsTo(t, c, session.value))
    requires forall rid :: rid in order <==> rid in ids
    ensures var t' := Disconnected(t, session, c, order, onLeave);
            Spec.Agree(t') && (Gone(t', c) <==> CanLeaveAll(t, session, c, ids))
  {
    if session.Some? {
      SweepOfSeats(t, session.value, c, order, onLeave);
    } else {
      forall u, w | Lookup(t.sessions, u, w).Some? && Lookup(t.sessions, u, w).value.client == c
        ensures exists rid :: rid in t.rooms && c in t.rooms[rid].players
      {
        assert Spec.HasSeat(t, u, w, Lookup(t.sessions, u, w).value);
      }
    }
  }

  datatype AuthAnswer = AlreadyAuthenticated | Denied | Welcome(user: UserId)

  class Dispatcher {
    const rooms: Manager

    constructor (rooms: Manager)
      ensures this.rooms == rooms
    {
      this.rooms := rooms;
    }

    /**
     A login: it never changes a session that is set, and sets one exactly when the authenticator
     accepts the token; the connection is closed exactly when a login is turned down.
     */
    method HandleAuth(c: Client, verdict: Option<UserId>) returns (answer: AuthAnswer, closes: bool)
      requires c.Valid()
      modifies c`session
      ensures c.Valid() && c.Books() == old(c.Books()) && c.bus.View() == old(c.bus.View())
      ensures old(c.session).Some? ==> c.session == old(c.session)
      ensures old(c.session).None? ==> c.session == verdict
      ensures answer == match old(c.session)
                        case Some(_) => AlreadyAuthenticated
                        case None => if verdict.Some? then Welcome(verdict.value) else Denied
      ensures closes <==> c.session.None?
    {
      closes := false;
      if c.session.Some? {
        return AlreadyAuthenticated, false;
      }
      if verdict.None? {
        return Denied, true;
      }
      c.SetSession(verdict.value);
      answer := Welcome(verdict.value);
    }

    /** The first loop of a disconnect. */
    method LeaveRooms(u: UserId, c: ClientId, rids: seq<RoomId>, onLeave: LeaveHooks)
      requires rooms.Valid()
      modifies rooms, rooms.rooms.Values
      ensures rooms.Valid() && rooms.rooms == old(rooms.rooms)
      ensures rooms.View() == LeaveAll(old(rooms.View()), u, c, rids, onLeave)
    {
      for i := 0 to |rids|
        invariant rooms.Valid() && rooms.rooms == old(rooms.rooms)
        invariant rooms.View() == LeaveAll(old(rooms.View()), u, c, rids[..i], onLeave)
      {
        var events := rooms.LeaveRoom(u, c, rids[i], onLeave(rids[i]));
        assert rids[..i + 1][..i] == rids[..i];
      }
      assert rids[..|rids|] == rids;
    }

    /** Only an authenticated client has seats to give up; order is how the room ids came out of its map. */
    method LeaveRoomsOf(c: Client, onLeave: LeaveHooks) returns (order: seq<RoomId>)
      requires rooms.Valid() && c.Valid()
      modifies rooms, rooms.rooms.Values
      ensures rooms.Valid() && rooms.rooms == old(rooms.rooms) && c.Valid()
      ensures c.bus.View() == old(c.bus.View())
      ensures forall rid :: rid in order <==> rid in c.roomIDs
      ensures rooms.View() == Disconnected(old(rooms.View()), c.session, c.id, order, onLeave)
    {
      order := c.RoomIDs();
      if c.session.Some? {
        LeaveRooms(c.session.value, c.id, order, onLeave);
      }
    }

    /**
     A disconnected client gives up its seat in every room it is routed by, and no subscription of
     it is left on the bus; nobody else's is touched. Records and seats stay in agreement, and
     neither is left of the client if and only if it was authenticated and routed by every room it
     sat in, or sat nowhere.
     */
    method OnDisconnect(c: Client, onLeave: LeaveHooks) returns (order: seq<RoomId>)
      requires rooms.Valid() && c.Valid()
      modifies rooms, rooms.rooms.Values, c, c.bus, c.bus.topics.Values
      ensures rooms.Valid() && c.Valid() && c.Books() == Book({}, {})
      ensures HeldBy(c.bus.View(), c.id) == {}
      ensures forall x :: x != c.id ==> HeldBy(c.bus.View(), x) == old(HeldBy(c.bus.View(), x))
      ensures forall rid :: rid in order <==> rid in old(c.roomIDs)
      ensures rooms.View() == Disconnected(old(rooms.View()), old(c.session), c.id, order, onLeave)
      ensures var t := old(rooms.View());
              Spec.Agree(t) && (old(c.session).Some? ==> Spec.BelongsTo(t, c.id, old(c.session).value)) ==>
                && Spec.Agree(rooms.View())
                && (Gone(rooms.View(), c.id) <==> CanLeaveAll(t, old(c.session), c.id, old(c.roomIDs)))
    {
      ghost var t, session, ids := rooms.View(), c.session, c.roomIDs;
      order := LeaveRoomsOf(c, onLeave);
      ghost var left := rooms.View();
      c.Sweep();
      assert rooms.Valid() && rooms.View() == left;
      if Spec.Agree(t) && (session.Some? ==> Spec.BelongsTo(t, c.id, session.value)) {
        DisconnectOfSeats(t, session, c.id, ids, order, onLeave);
      }
    }
  }
}
