/**
 The manager: the room table and the singleton records, edited in place. What a request publishes is
 handed back in order.
 */
module Manager {
  import opened Base
  import opened RoomModel
  import opened SessionTable
  import opened RoomActor
  import opened News
  import Spec = ManagerModel

  /** The configuration a room is created with: a module's, with the cap the request may override. */
  function Resolve(modules: map<RoomType, Config>, request: Config): (config: Config)
    ensures config.typ == request.typ
    ensures request.typ !in modules ==> config == request
    ensures request.typ in modules ==>
              && config.mode == modules[request.typ].mode && config.grace == modules[request.typ].grace
              && (request.maxPlayers != 0 ==> config.maxPlayers == request.maxPlayers)
              && (request.maxPlayers == 0 ==> config.maxPlayers == modules[request.typ].maxPlayers)
  {
    if request.typ in modules then
      var base := modules[request.typ].(typ := request.typ);
      if request.maxPlayers != 0 then base.(maxPlayers := request.maxPlayers) else base
    else request
  }

  class Manager {
    var rooms: map<RoomId, Room>
    var userSessions: Sessions
    const modules: map<RoomType, Config>

    /** Rooms are registered under their own ids and have not been shut down. */
    ghost predicate Valid()
      reads this, rooms.Values
    {
      forall rid :: rid in rooms ==> rooms[rid].id == rid && !rooms[rid].down
    }

    ghost function View(): (view: Spec.Table)
      reads this, rooms.Values
    {
      Spec.Table(map rid | rid in rooms :: rooms[rid].View(), userSessions)
    }

    constructor (modules: map<RoomType, Config>)
      ensures Valid() && View() == Spec.Table(map[], map[]) && this.modules == modules
    {
      rooms, userSessions, this.modules := map[], map[], modules;
    }

    /** rid is a fresh unique id. */
    method Create(rid: RoomId, request: Config, keep: bool) returns (room: Room, events: seq<Event>)
      requires Valid() && rid !in rooms
      modifies this
      ensures Valid() && fresh(room) && rooms == old(rooms)[rid := room]
      ensures View() == Spec.CreateRoom(old(View()), rid, Resolve(modules, request), keep)
      ensures events == [RoomCreated(rid)]
      ensures request.typ !in modules ==> room.config == request
      ensures request.typ in modules ==>
                && room.config.typ == request.typ
                && room.config.mode == modules[request.typ].mode && room.config.grace == modules[request.typ].grace
                && room.config.maxPlayers == (if request.maxPlayers != 0 then request.maxPlayers
                                              else modules[request.typ].maxPlayers)
      ensures room.players == map[] && room.isOpen && room.keepOnEmpty == keep && room.emptyTimer == NoTimer
    {
      room := new Room(rid, Resolve(modules, request), keep);
      rooms := rooms[rid := room];
      events := [RoomCreated(rid)];
    }

    /** The locked phase of a join: refuse it, or record it and note whose record it took over. */
    method Reserve(u: UserId, c: ClientId, rid: RoomId) returns (admitted: bool, replaced: Option<Session>)
      requires Valid() && rid in rooms
      modifies `userSessions
      ensures View() == old(View()).(sessions := userSessions)
      ensures var admission := Admit(old(userSessions), u, c, rid, rooms[rid].config);
              if admission.Rejected? then !admitted && userSessions == old(userSessions)
              else admitted && userSessions == admission.sessions && replaced == admission.replaced
    {
      var config := rooms[rid].config;
      admitted, replaced := true, None;
      if config.mode != Allow {
        var current := Lookup(userSessions, u, config.typ);
        if current.Some? && (current.value.room != rid || current.value.client != c) {
          match config.mode
          case Reject => admitted := false; return;
          case Replace => replaced := current;
          case _ =>
        }
        userSessions := Record(userSessions, u, config.typ, Session(rid, c));
      }
    }

    /** The table after a change to one room's object. */
    twostate lemma OneRoomChanged(rid: RoomId)
      requires old(Valid()) && rid in rooms && unchanged(this)
      requires forall x :: x in rooms && x != rid ==> unchanged(rooms[x])
      ensures View() == old(View()).(rooms := old(View()).rooms[rid := rooms[rid].View()])
    {}

    /** The target room's part of a join: an atomic swap in the same room, a plain join otherwise. */
    method Enter(u: UserId, c: ClientId, rid: RoomId, replaced: Option<Session>, h: Spec.Hooks)
      returns (err: Option<Error>, events: seq<Event>)
      requires Valid() && rid in rooms
      modifies rooms[rid]
      ensures Valid()
      ensures var r := old(rooms[rid].View());
              var a := Spec.JoinActionFor(rid, replaced, u, c, h);
              && err == ErrorOf(OutcomeOf(r, a))
              && events == InRoom(rid, Announced(r, a))
              && rooms[rid].View() == Spec.RoomAfterJoin(r, a)
              && View() == old(View()).(rooms := old(View()).rooms[rid := rooms[rid].View()])
    {
      var notices: seq<Notice>;
      if replaced.Some? && replaced.value.room == rid {
        err, notices := rooms[rid].JoinReplace(replaced.value.client, c, u, h.onLeave, h.onJoin);
      } else {
        err, notices := rooms[rid].Join(c, u, h.onJoin);
      }
      events := InRoom(rid, notices);
      OneRoomChanged(rid);
    }

    /** Kick a replaced client from another room, if that can still be found, and tell it. */
    method KickOut(rid: RoomId, replaced: Option<Session>, onKick: seq<bool>) returns (events: seq<Event>)
      requires Valid()
      modifies rooms.Values
      ensures Valid()
      ensures View() == Spec.Kick(old(View()), rid, replaced, onKick)
      ensures events == KickNews(old(View()), rid, replaced, onKick)
    {
      events := [];
      if replaced.Some? {
        var Session(from, client) := replaced.value;
        if from != rid && from in rooms {
          var notices := rooms[from].Leave(client, onKick);
          events := InRoom(from, notices);
          OneRoomChanged(from);
        }
        events := events + [Kicked(client, rid)];
      }
    }

    /** The rollback of a failed join, if the record still names this client. */
    method Undo(u: UserId, c: ClientId, t: RoomType)
      requires Valid()
      modifies `userSessions
      ensures View() == old(View()).(sessions := userSessions)
      ensures userSessions == Rollback(old(userSessions), u, c, t)
    {
      var current := Lookup(userSessions, u, t);
      if current.Some? && current.value.client == c {
        userSessions := Unrecord(userSessions, u, t);
      }
    }

    /** After the room's part of a join: the kick of the replaced client, or the rollback. */
    method Conclude(u: UserId, c: ClientId, rid: RoomId, replaced: Option<Session>, seated: bool, onKick: seq<bool>)
      returns (events: seq<Event>)
      requires Valid() && rid in rooms
      modifies this`userSessions, rooms.Values
      ensures Valid() && events == if seated then KickNews(old(View()), rid, replaced, onKick) else []
      ensures var t, config := old(View()), rooms[rid].config;
              View() == if seated then Spec.Kick(t, rid, replaced, onKick)
                        else if config.mode != Allow then t.(sessions := Rollback(t.sessions, u, c, config.typ))
                        else t
    {
      events := [];
      if seated {
        events := KickOut(rid, replaced, onKick);
      } else if rooms[rid].config.mode != Allow {
        Undo(u, c, rooms[rid].config.typ);
      }
    }

    method JoinRoom(u: UserId, c: ClientId, rid: RoomId, h: Spec.Hooks)
      returns (err: Option<Error>, events: seq<Event>)
      requires Valid()
      modifies this, rooms.Values
      ensures Valid() && rooms == old(rooms)
      ensures View() == Spec.JoinRoom(old(View()), u, c, rid, h).0
      ensures err == Spec.JoinRoom(old(View()), u, c, rid, h).1
      ensures events == JoinNews(old(View()), u, c, rid, h)
    {
      if rid !in rooms {
        return Some(RoomNotFound), [];
      }
      var admitted, replaced := Reserve(u, c, rid);
      if !admitted {
        return Some(AlreadyInRoomOfType), [];
      }
      err, events := Enter(u, c, rid, replaced, h);
      JoinSteps(old(View()), u, c, rid, h);
      var more := Conclude(u, c, rid, replaced, err.None?, h.onKick);
      events := events + more;
    }

    /** The locked phase of a leave: drop the record if it still names this seat. */
    method ReleaseRecord(u: UserId, c: ClientId, rid: RoomId)
      requires Valid() && rid in rooms
      modifies `userSessions
      ensures View() == old(View()).(sessions := userSessions)
      ensures userSessions == Release(old(userSessions), u, c, rid, rooms[rid].config)
    {
      var config := rooms[rid].config;
      if config.mode != Allow && Lookup(userSessions, u, config.typ) == Some(Session(rid, c)) {
        userSessions := Unrecord(userSessions, u, config.typ);
      }
    }

    method LeaveRoom(u: UserId, c: ClientId, rid: RoomId, onLeave: seq<bool>) returns (events: seq<Event>)
      requires Valid()
      modifies this, rooms.Values
      ensures Valid() && rooms == old(rooms)
      ensures View() == Spec.LeaveRoom(old(View()), u, c, rid, onLeave)
      ensures events == LeaveNews(old(View()), c, rid, onLeave)
    {
      if rid !in rooms {
        return [];
      }
      ReleaseRecord(u, c, rid);
      label L:
      var notices := rooms[rid].Leave(c, onLeave);
      events := InRoom(rid, notices);
      OneRoomChanged@L(rid);
    }

    /** Delete one record, and the user's inner map with its last one. */
    method DeleteRecord(u: UserId, t: RoomType)
      requires u in userSessions
      modifies `userSessions
      ensures userSessions == Unrecord(old(userSessions), u, t)
    {
      if t in userSessions[u] {
        var sessions := userSessions[u] - {t};
        userSessions := if |sessions| == 0 then userSessions - {u} else userSessions[u := sessions];
      }
    }

    /** The inner loop of a cleanup: one user's records. */
    method CleanupOne(u: UserId, t: RoomType, rid: RoomId)
      requires u in userSessions
      modifies `userSessions
      ensures userSessions == CleanupUser(old(userSessions), u, t, rid)
    {
      CleanupUserIsUnrecord(userSessions, u, t, rid);
      var sessions := userSessions[u];
      var types := sessions.Keys;
      while types != {}
        invariant types <= sessions.Keys
        invariant t in types ==> userSessions == old(userSessions)
        invariant t !in types ==> userSessions == CleanupUser(old(userSessions), u, t, rid)
      {
        var w :| w in types;
        types := types - {w};
        if w == t && sessions[w].room == rid {
          DeleteRecord(u, w);
        }
      }
    }

    /** Drop every record that points to room rid, and users left without any. */
    method CleanupSessionType(t: RoomType, rid: RoomId)
      modifies `userSessions
      ensures userSessions == Cleanup(old(userSessions), t, rid)
    {
      var users := userSessions.Keys;
      while users != {}
        invariant HalfClean(userSessions, old(userSessions), t, rid, users)
      {
        var u :| u in users;
        HalfCleanStep(userSessions, old(userSessions), t, rid, users, u);
        users := users - {u};
        CleanupOne(u, t, rid);
      }
      AllClean(userSessions, old(userSessions), t, rid);
    }

    method Remove(rid: RoomId) returns (events: seq<Event>)
      requires Valid()
      modifies this, rooms.Values
      ensures Valid() && rooms == old(rooms) - {rid}
      ensures View() == Spec.RemoveRoom(old(View()), rid)
      ensures events == if rid in old(rooms) then [RoomRemoved(rid)] else []
      ensures rid in old(rooms) ==> old(rooms)[rid].down
    {
      if rid !in rooms {
        assert rooms - {rid} == rooms;
        return [];
      }
      var room := rooms[rid];
      rooms := rooms - {rid};
      CleanupSessionType(room.config.typ, rid);
      room.Shutdown();
      events := [RoomRemoved(rid)];
    }

    /** The first half: both maps are emptied under the lock, and the rooms handed over. */
    method TakeRooms() returns (taken: map<RoomId, Room>)
      modifies `rooms, `userSessions
      ensures taken == old(rooms) && rooms == map[] && userSessions == map[]
    {
      taken := rooms;
      rooms, userSessions := map[], map[];
    }

    /** The second: every room is shut down. */
    static method ShutdownRooms(taken: map<RoomId, Room>)
      modifies taken.Values
      ensures forall rid :: rid in taken ==> taken[rid].down
    {
      var pending := taken.Keys;
      while pending != {}
        invariant pending <= taken.Keys
        invariant forall rid :: rid in taken && rid !in pending ==> taken[rid].down
      {
        var rid :| rid in pending;
        pending := pending - {rid};
        taken[rid].Shutdown();
      }
    }

    method ShutdownAll()
      requires Valid()
      modifies this, rooms.Values
      ensures Valid() && rooms == map[] && View() == Spec.Table(map[], map[])
      ensures forall rid :: rid in old(rooms) ==> old(rooms)[rid].down
    {
      var taken := TakeRooms();
      ShutdownRooms(taken);
    }
  }
}
