/**
 The events a request publishes: those of a room on its own topic, the creation and removal of
 rooms on the lobby's, and the notice to a client whose seat was taken over. A listener that follows
 them in the order they are published knows every room and who sits in it.
 */
module News {
  import opened Base
  import opened RoomModel
  import opened SessionTable
  import opened ManagerModel

  /** What a room announces on its topic. */
  datatype Notice = PlayerJoined(client: ClientId, user: UserId) | PlayerLeft(client: ClientId)

  datatype Event =
    | OfRoom(rid: RoomId, notice: Notice)
    | RoomCreated(rid: RoomId)
    | RoomRemoved(rid: RoomId)
    | Kicked(client: ClientId, joined: RoomId)

  /** The caller announces what the closure it submitted reports: nothing on a refusal or an idempotent rejoin. */
  function Announced(r: RoomState, a: Action): (notices: seq<Notice>) {
    match a
    case DoJoin(c, u, _) => if OutcomeOf(r, a) == Seated(true) then [PlayerJoined(c, u)] else []
    case DoReplace(prev, c, u, _, _) =>
      if OutcomeOf(r, a).Seated? then [PlayerLeft(prev), PlayerJoined(c, u)] else []
    case DoLeave(c, _) => if c in r.players then [PlayerLeft(c)] else []
    case _ => []
  }

  function AnnouncedAll(r: RoomState, actions: seq<Action>): (notices: seq<Notice>)
    decreases |actions|
  {
    if actions == [] then [] else Announced(r, actions[0]) + AnnouncedAll(Act(r, actions[0]), actions[1..])
  }

  // ---------------------------------------------------------------- a listener of one room

  type Roster = map<ClientId, UserId>

  function Hear(players: Roster, notice: Notice): (after: Roster) {
    match notice
    case PlayerJoined(c, u) => players[c := u]
    case PlayerLeft(c) => players - {c}
  }

  function HearAll(players: Roster, notices: seq<Notice>): (after: Roster)
    decreases |notices|
  {
    if notices == [] then players else HearAll(Hear(players, notices[0]), notices[1..])
  }

  lemma {:induction false} HearAppend(players: Roster, ns: seq<Notice>, ms: seq<Notice>)
    ensures HearAll(players, ns + ms) == HearAll(HearAll(players, ns), ms)
    decreases |ns|
  {
    if ns == [] {
      assert [] + ms == ms;
    } else {
      assert (ns + ms)[1..] == ns[1..] + ms;
      HearAppend(Hear(players, ns[0]), ns[1..], ms);
    }
  }

  lemma HearOne(players: Roster, n: Notice)
    ensures HearAll(players, [n]) == Hear(players, n)
  {
    assert [n][1..] == [];
  }

  lemma HearTwo(players: Roster, n: Notice, m: Notice)
    ensures HearAll(players, [n, m]) == Hear(Hear(players, n), m)
  {
    assert [n, m][1..] == [m];
    HearOne(Hear(players, n), m);
  }

  lemma JoinIsHeard(r: RoomState, c: ClientId, u: UserId, onJoin: seq<bool>)
    ensures var a := DoJoin(c, u, onJoin);
            Act(r, a).players == HearAll(r.players, Announced(r, a))
  {
    HearOne(r.players, PlayerJoined(c, u));
    SeatFrame(r, c, u, onJoin);
  }

  lemma ReplaceIsHeard(r: RoomState, prev: ClientId, c: ClientId, u: UserId, onLeave: seq<bool>, onJoin: seq<bool>)
    requires WithinCapacity(r)
    ensures var a := DoReplace(prev, c, u, onLeave, onJoin);
            Act(r, a).players == HearAll(r.players, Announced(r, a))
  {
    HearTwo(r.players, PlayerLeft(prev), PlayerJoined(c, u));
    ReplaceAllOrNothing(r, prev, c, u, onLeave, onJoin);
  }

  lemma LeaveIsHeard(r: RoomState, c: ClientId, onLeave: seq<bool>)
    ensures var a := DoLeave(c, onLeave);
            Act(r, a).players == HearAll(r.players, Announced(r, a))
  {
    HearOne(r.players, PlayerLeft(c));
    DropFrame(r, c, onLeave);
  }

  /** What a closure announces is the change it makes to the players, in a room within its capacity. */
  lemma ActIsHeard(r: RoomState, a: Action)
    requires WithinCapacity(r)
    ensures Act(r, a).players == HearAll(r.players, Announced(r, a))
  {
    match a
    case DoJoin(c, u, onJoin) => JoinIsHeard(r, c, u, onJoin);
    case DoReplace(prev, c, u, onLeave, onJoin) => ReplaceIsHeard(r, prev, c, u, onLeave, onJoin);
    case DoLeave(c, onLeave) => LeaveIsHeard(r, c, onLeave);
    case _ => assert Announced(r, a) == [];
  }

  lemma {:induction false} RunIsHeard(r: RoomState, actions: seq<Action>)
    requires WithinCapacity(r)
    ensures RunActions(r, actions).players == HearAll(r.players, AnnouncedAll(r, actions))
    decreases |actions|
  {
    if actions == [] {
    } else {
      ActKeepsCapacity(r, actions[0]);
      ActIsHeard(r, actions[0]);
      RunIsHeard(Act(r, actions[0]), actions[1..]);
      HearAppend(r.players, Announced(r, actions[0]), AnnouncedAll(Act(r, actions[0]), actions[1..]));
    }
  }

  /**
   Over every run of a new room's closures, each announced before the next one runs: whoever follows
   its topic from the start knows exactly who sits in it.
   */
  lemma RosterOverEveryRun(config: Config, keep: bool, actions: seq<Action>)
    ensures var r := NewRoom(config, keep);
            RunActions(r, actions).players == HearAll(map[], AnnouncedAll(r, actions))
  {
    RunIsHeard(NewRoom(config, keep), actions);
  }

  // ---------------------------------------------------------------- what a request publishes

  function InRoom(rid: RoomId, notices: seq<Notice>): (events: seq<Event>) {
    seq(|notices|, i requires 0 <= i < |notices| => OfRoom(rid, notices[i]))
  }

  /** The replaced client's leave of another room that can still be found, then the notice to it. */
  function KickNews(t: Table, rid: RoomId, replaced: Option<Session>, onKick: seq<bool>): (events: seq<Event>) {
    match replaced
    case None => []
    case Some(x) =>
      (if x.room != rid && x.room in t.rooms then InRoom(x.room, Announced(t.rooms[x.room], DoLeave(x.client, onKick)))
       else [])
      + [Kicked(x.client, rid)]
  }

  function JoinNews(t: Table, u: UserId, c: ClientId, rid: RoomId, h: Hooks): (events: seq<Event>) {
    if rid !in t.rooms then []
    else
      match Admit(t.sessions, u, c, rid, t.rooms[rid].config)
      case Rejected => []
      case Admitted(_, replaced) =>
        var a := JoinActionFor(rid, replaced, u, c, h);
        if OutcomeOf(t.rooms[rid], a).Refused? then []
        else InRoom(rid, Announced(t.rooms[rid], a)) + KickNews(t, rid, replaced, h.onKick)
  }

  function LeaveNews(t: Table, c: ClientId, rid: RoomId, onLeave: seq<bool>): (events: seq<Event>) {
    if rid in t.rooms then InRoom(rid, Announced(t.rooms[rid], DoLeave(c, onLeave))) else []
  }

  function RemoveNews(t: Table, rid: RoomId): (events: seq<Event>) {
    if rid in t.rooms then [RoomRemoved(rid)] else []
  }

  ghost function NewsOf(t: Table, owner: ClientId -> UserId, q: Request): (events: seq<Event>) {
    match q
    case Join(c, rid, h) => JoinNews(t, owner(c), c, rid, h)
    case Leave(c, rid, onLeave) => LeaveNews(t, c, rid, onLeave)
    case Remove(rid) => RemoveNews(t, rid)
    case Create(rid, _, _) => if rid in t.rooms then [] else [RoomCreated(rid)]
    case Inside(_, _, _) => []
  }

  ghost function NewsOfAll(t: Table, owner: ClientId -> UserId, qs: seq<Request>): (events: seq<Event>)
    decreases |qs|
  {
    if qs == [] then [] else NewsOf(t, owner, qs[0]) + NewsOfAll(Serve(t, owner, qs[0]), owner, qs[1..])
  }

  // ---------------------------------------------------------------- a listener of the lobby and every room

  type Directory = map<RoomId, Roster>

  function Rosters(t: Table): (d: Directory) {
    map rid | rid in t.rooms :: t.rooms[rid].players
  }

  function Follow(d: Directory, e: Event): (after: Directory) {
    match e
    case OfRoom(rid, notice) => if rid in d then d[rid := Hear(d[rid], notice)] else d
    case RoomCreated(rid) => d[rid := map[]]
    case RoomRemoved(rid) => d - {rid}
    case Kicked(_, _) => d
  }

  function FollowAll(d: Directory, events: seq<Event>): (after: Directory)
    decreases |events|
  {
    if events == [] then d else FollowAll(Follow(d, events[0]), events[1..])
  }

  lemma {:induction false} FollowAppend(d: Directory, es: seq<Event>, fs: seq<Event>)
    ensures FollowAll(d, es + fs) == FollowAll(FollowAll(d, es), fs)
    decreases |es|
  {
    if es == [] {
      assert [] + fs == fs;
    } else {
      assert (es + fs)[1..] == es[1..] + fs;
      FollowAppend(Follow(d, es[0]), es[1..], fs);
    }
  }

  lemma FollowOne(d: Directory, e: Event)
    ensures FollowAll(d, [e]) == Follow(d, e)
  {
    assert [e][1..] == [];
  }

  lemma {:induction false} FollowRoom(d: Directory, rid: RoomId, notices: seq<Notice>)
    requires rid in d
    ensures FollowAll(d, InRoom(rid, notices)) == d[rid := HearAll(d[rid], notices)]
    decreases |notices|
  {
    if notices == [] {
      assert d[rid := d[rid]] == d;
    } else {
      assert InRoom(rid, notices)[1..] == InRoom(rid, notices[1..]);
      FollowRoom(d[rid := Hear(d[rid], notices[0])], rid, notices[1..]);
    }
  }

  /** One room's closure, in the table and to a listener. */
  lemma RoomIsFollowed(t: Table, rid: RoomId, a: Action, r': RoomState, ss: Sessions)
    requires rid in t.rooms && WithinCapacity(t.rooms[rid]) && r'.players == Act(t.rooms[rid], a).players
    ensures Rosters(Table(t.rooms[rid := r'], ss))
            == FollowAll(Rosters(t), InRoom(rid, Announced(t.rooms[rid], a)))
  {
    ActIsHeard(t.rooms[rid], a);
    FollowRoom(Rosters(t), rid, Announced(t.rooms[rid], a));
  }

  lemma KickIsFollowed(t: Table, rid: RoomId, replaced: Option<Session>, onKick: seq<bool>)
    requires AllWithinCapacity(t)
    ensures Rosters(Kick(t, rid, replaced, onKick)) == FollowAll(Rosters(t), KickNews(t, rid, replaced, onKick))
  {
    if replaced.Some? {
      var Session(from, client) := replaced.value;
      var d := Rosters(Kick(t, rid, replaced, onKick));
      FollowOne(d, Kicked(client, rid));
      if from != rid && from in t.rooms {
        var a := DoLeave(client, onKick);
        RoomIsFollowed(t, from, a, LeaveInRoom(t.rooms[from], client, onKick), t.sessions);
        FollowAppend(Rosters(t), InRoom(from, Announced(t.rooms[from], a)), [Kicked(client, rid)]);
      } else {
        assert [] + [Kicked(client, rid)] == [Kicked(client, rid)];
      }
    }
  }

  /** The joined room does not matter to the kick that follows. */
  lemma KickNewsElsewhere(t: Table, t': Table, rid: RoomId, replaced: Option<Session>, onKick: seq<bool>)
    requires rid in t.rooms && rid in t'.rooms && t'.rooms == t.rooms[rid := t'.rooms[rid]]
    ensures KickNews(t', rid, replaced, onKick) == KickNews(t, rid, replaced, onKick)
  {}

  /** An admitted join in its two phases: the target room's closure, then the rollback or the kick. */
  lemma JoinSteps(t: Table, u: UserId, c: ClientId, rid: RoomId, h: Hooks)
    requires rid in t.rooms && Admit(t.sessions, u, c, rid, t.rooms[rid].config).Admitted?
    ensures var Admitted(sessions, replaced) := Admit(t.sessions, u, c, rid, t.rooms[rid].config);
            var r := t.rooms[rid];
            var a := JoinActionFor(rid, replaced, u, c, h);
            var t1 := Table(t.rooms[rid := RoomAfterJoin(r, a)], sessions);
            var undone := Rollback(sessions, u, c, r.config.typ);
            if OutcomeOf(r, a).Refused? then
              && JoinRoom(t, u, c, rid, h).0 == t1.(sessions := if r.config.mode != Allow then undone else sessions)
              && JoinNews(t, u, c, rid, h) == [] == InRoom(rid, Announced(r, a))
            else
              && JoinRoom(t, u, c, rid, h).0 == Kick(t1, rid, replaced, h.onKick)
              && JoinNews(t, u, c, rid, h) == InRoom(rid, Announced(r, a)) + KickNews(t1, rid, replaced, h.onKick)
  {
    var Admitted(sessions, replaced) := Admit(t.sessions, u, c, rid, t.rooms[rid].config);
    var a := JoinActionFor(rid, replaced, u, c, h);
    KickNewsElsewhere(t, Table(t.rooms[rid := RoomAfterJoin(t.rooms[rid], a)], sessions), rid, replaced, h.onKick);
  }

  lemma SeatedJoinIsFollowed(t: Table, u: UserId, c: ClientId, rid: RoomId, h: Hooks)
    requires AllWithinCapacity(t) && rid in t.rooms
    requires Admit(t.sessions, u, c, rid, t.rooms[rid].config).Admitted?
    requires var replaced := Admit(t.sessions, u, c, rid, t.rooms[rid].config).replaced;
             OutcomeOf(t.rooms[rid], JoinActionFor(rid, replaced, u, c, h)).Seated?
    ensures Rosters(JoinRoom(t, u, c, rid, h).0) == FollowAll(Rosters(t), JoinNews(t, u, c, rid, h))
  {
    var Admitted(sessions, replaced) := Admit(t.sessions, u, c, rid, t.rooms[rid].config);
    var a := JoinActionFor(rid, replaced, u, c, h);
    var t1 := Table(t.rooms[rid := RoomAfterJoin(t.rooms[rid], a)], sessions);
    EnterFrame(t, rid, sessions, replaced, u, c, h);
    RoomIsFollowed(t, rid, a, RoomAfterJoin(t.rooms[rid], a), sessions);
    KickIsFollowed(t1, rid, replaced, h.onKick);
    JoinSteps(t, u, c, rid, h);
    FollowAppend(Rosters(t), InRoom(rid, Announced(t.rooms[rid], a)), KickNews(t1, rid, replaced, h.onKick));
  }

  lemma JoinIsFollowed(t: Table, u: UserId, c: ClientId, rid: RoomId, h: Hooks)
    requires AllWithinCapacity(t)
    ensures Rosters(JoinRoom(t, u, c, rid, h).0) == FollowAll(Rosters(t), JoinNews(t, u, c, rid, h))
  {
    JoinErrorsExactly(t, u, c, rid, h);
    if JoinRoom(t, u, c, rid, h).1.None? {
      SeatedJoinIsFollowed(t, u, c, rid, h);
    } else {
      assert JoinNews(t, u, c, rid, h) == [];
    }
  }

  lemma LeaveIsFollowed(t: Table, u: UserId, c: ClientId, rid: RoomId, onLeave: seq<bool>)
    requires AllWithinCapacity(t)
    ensures Rosters(LeaveRoom(t, u, c, rid, onLeave)) == FollowAll(Rosters(t), LeaveNews(t, c, rid, onLeave))
  {
    if rid in t.rooms {
      var r := t.rooms[rid];
      RoomIsFollowed(t, rid, DoLeave(c, onLeave), LeaveInRoom(r, c, onLeave), Release(t.sessions, u, c, rid, r.config));
    }
  }

  lemma RemoveIsFollowed(t: Table, rid: RoomId)
    ensures Rosters(RemoveRoom(t, rid)) == FollowAll(Rosters(t), RemoveNews(t, rid))
  {
    FollowOne(Rosters(t), RoomRemoved(rid));
  }

  lemma CreateIsFollowed(t: Table, rid: RoomId, config: Config, keep: bool)
    ensures Rosters(CreateRoom(t, rid, config, keep)) == FollowAll(Rosters(t), [RoomCreated(rid)])
  {
    FollowOne(Rosters(t), RoomCreated(rid));
  }

  lemma ServeIsFollowed(t: Table, owner: ClientId -> UserId, q: Request)
    requires AllWithinCapacity(t)
    ensures Rosters(Serve(t, owner, q)) == FollowAll(Rosters(t), NewsOf(t, owner, q))
  {
    match q
    case Join(c, rid, h) => JoinIsFollowed(t, owner(c), c, rid, h);
    case Leave(c, rid, onLeave) => LeaveIsFollowed(t, owner(c), c, rid, onLeave);
    case Remove(rid) => RemoveIsFollowed(t, rid);
    case Create(rid, config, keep) => CreateIsFollowed(t, rid, config, keep);
    case Inside(_, _, _) =>
  }

  lemma {:induction false} RunIsFollowed(t: Table, owner: ClientId -> UserId, qs: seq<Request>)
    requires AllWithinCapacity(t)
    ensures Rosters(ServeAll(t, owner, qs)) == FollowAll(Rosters(t), NewsOfAll(t, owner, qs))
    decreases |qs|
  {
    if qs == [] {
    } else {
      ServeFrame(t, owner, qs[0]);
      ServeIsFollowed(t, owner, qs[0]);
      RunIsFollowed(Serve(t, owner, qs[0]), owner, qs[1..]);
      FollowAppend(Rosters(t), NewsOf(t, owner, qs[0]), NewsOfAll(Serve(t, owner, qs[0]), owner, qs[1..]));
    }
  }

  /** Over every sequential run: a listener from the start knows the rooms and their players exactly. */
  lemma DirectoryOverEveryRun(owner: ClientId -> UserId, qs: seq<Request>)
    ensures var t := ServeAll(Table(map[], map[]), owner, qs);
            FollowAll(map[], NewsOfAll(Table(map[], map[]), owner, qs))
            == map rid | rid in t.rooms :: t.rooms[rid].players
  {
    RunIsFollowed(Table(map[], map[]), owner, qs);
    assert Rosters(Table(map[], map[])) == map[];
  }

  // ---------------------------------------------------------------- what a join publishes, exactly

  /** What the room left by a replaced client announces: it goes, if it sits there and the room is registered. */
  function LeftRoom(t: Table, x: Session): (events: seq<Event>) {
    if x.room in t.rooms && x.client in t.rooms[x.room].players then [OfRoom(x.room, PlayerLeft(x.client))] else []
  }

  /**
   The events of a join in order, told from the state before it: none if it fails; a leave and a join
   for a swap, a join for a newcomer, none for a client that sits in the room already; then, if the
   user's record was taken over, the leave of the other room and the notice to its client.
   */
  lemma JoinNewsExactly(t: Table, u: UserId, c: ClientId, rid: RoomId, h: Hooks)
    requires AllWithinCapacity(t)
    ensures JoinRoom(t, u, c, rid, h).1.Some? ==> JoinNews(t, u, c, rid, h) == []
    ensures JoinRoom(t, u, c, rid, h).1.None? ==>
              var r := t.rooms[rid];
              var current := Lookup(t.sessions, u, r.config.typ);
              var joins := if c in r.players then [] else [OfRoom(rid, PlayerJoined(c, u))];
              JoinNews(t, u, c, rid, h) ==
              if !(r.config.mode == Replace && HeldElsewhere(t, u, c, rid)) then joins
              else if current.value.room != rid then
                joins + LeftRoom(t, current.value) + [Kicked(current.value.client, rid)]
              else
                [OfRoom(rid, PlayerLeft(current.value.client)), OfRoom(rid, PlayerJoined(c, u)),
                 Kicked(current.value.client, rid)]
  {
    JoinErrorsExactly(t, u, c, rid, h);
    if JoinRoom(t, u, c, rid, h).1.None? {
      var replaced := Admit(t.sessions, u, c, rid, t.rooms[rid].config).replaced;
      SeatedNotices(t.rooms[rid], rid, replaced, u, c, h);
      if replaced.Some? && replaced.value.room != rid {
        KickNotices(t, rid, replaced.value, h.onKick);
      }
    }
  }

  lemma SeatedNotices(r: RoomState, rid: RoomId, replaced: Option<Session>, u: UserId, c: ClientId, h: Hooks)
    requires OutcomeOf(r, JoinActionFor(rid, replaced, u, c, h)).Seated?
    ensures InRoom(rid, Announced(r, JoinActionFor(rid, replaced, u, c, h))) ==
            if replaced.Some? && replaced.value.room == rid then
              [OfRoom(rid, PlayerLeft(replaced.value.client)), OfRoom(rid, PlayerJoined(c, u))]
            else if c in r.players then []
            else [OfRoom(rid, PlayerJoined(c, u))]
  {}

  lemma KickNotices(t: Table, rid: RoomId, x: Session, onKick: seq<bool>)
    requires x.room != rid
    ensures KickNews(t, rid, Some(x), onKick) == LeftRoom(t, x) + [Kicked(x.client, rid)]
  {
    if x.room in t.rooms && x.client in t.rooms[x.room].players {
      assert InRoom(x.room, [PlayerLeft(x.client)]) == [OfRoom(x.room, PlayerLeft(x.client))];
    }
  }

  // ---------------------------------------------------------------- the notice to a replaced client

  lemma AnnouncementsKickNobody(rid: RoomId, notices: seq<Notice>)
    ensures forall e :: e in InRoom(rid, notices) ==> e.OfRoom?
  {}

  /** A client is told that it was kicked exactly when a join succeeded that took its record over. */
  lemma KickedExactly(t: Table, u: UserId, c: ClientId, rid: RoomId, h: Hooks, d: ClientId, x: RoomId)
    requires AllWithinCapacity(t)
    ensures Kicked(d, x) in JoinNews(t, u, c, rid, h) <==>
            && x == rid && JoinRoom(t, u, c, rid, h).1.None?
            && t.rooms[rid].config.mode == Replace && HeldElsewhere(t, u, c, rid)
            && Lookup(t.sessions, u, t.rooms[rid].config.typ).value.client == d
  {
    JoinErrorsExactly(t, u, c, rid, h);
    if JoinRoom(t, u, c, rid, h).1.None? {
      var replaced := Admit(t.sessions, u, c, rid, t.rooms[rid].config).replaced;
      AnnouncementsKickNobody(rid, Announced(t.rooms[rid], JoinActionFor(rid, replaced, u, c, h)));
    }
  }

  /** And then it has lost the seat that record named. */
  lemma KickedIsUnseated(t: Table, u: UserId, c: ClientId, rid: RoomId, h: Hooks, d: ClientId, x: RoomId)
    requires AllWithinCapacity(t) && Kicked(d, x) in JoinNews(t, u, c, rid, h)
    ensures rid in t.rooms && Lookup(t.sessions, u, t.rooms[rid].config.typ).Some?
    ensures var from := Lookup(t.sessions, u, t.rooms[rid].config.typ).value.room;
            var t' := JoinRoom(t, u, c, rid, h).0;
            from in t'.rooms ==> d !in t'.rooms[from].players
  {
    KickedExactly(t, u, c, rid, h, d, x);
    var replaced := Admit(t.sessions, u, c, rid, t.rooms[rid].config).replaced;
    JoinFrame(t.rooms[rid], rid, replaced, u, c, h);
    if replaced.value.room in t.rooms {
      LeaveInRoomFrame(t.rooms[replaced.value.room], replaced.value.client, h.onKick);
    }
  }
}
