/**
 The manager run one request at a time, as functions on its two maps: the registered rooms and
 the singleton records. The Manager class is proved against these, and the interleaved protocol
 run without interleaving is shown to coincide with them.
 */
module ManagerModel {
  import opened Base
  import opened RoomModel
  import opened SessionTable

  datatype Table = Table(rooms: map<RoomId, RoomState>, sessions: Sessions)

  /** The SetKeepOnEmpty calls of the hooks a request runs: in the target room, and in the room left. */
  datatype Hooks = Hooks(onLeave: seq<bool>, onJoin: seq<bool>, onKick: seq<bool>)

  const NO_HOOKS: Hooks := Hooks([], [], [])

  /** Leave as a whole: the second actor step runs when the first one emptied the room. */
  function LeaveInRoom(r: RoomState, c: ClientId, onLeave: seq<bool>): (after: RoomState) {
    var r' := LeaveBody(r, c, onLeave);
    if c in r.players && IsEmpty(r') then ScheduleEmptyRemoval(r') else r'
  }

  function JoinActionFor(rid: RoomId, replaced: Option<Session>, u: UserId, c: ClientId, h: Hooks): (action: Action) {
    if replaced.Some? && replaced.value.room == rid
    then DoReplace(replaced.value.client, c, u, h.onLeave, h.onJoin)
    else DoJoin(c, u, h.onJoin)
  }

  /** The room after the join closure and the caller's reaction to becameEmpty. */
  function RoomAfterJoin(r: RoomState, a: Action): (after: RoomState) {
    var r' := Act(r, a);
    var outcome := OutcomeOf(r, a);
    if outcome.Refused? && outcome.becameEmpty then r'.(requests := r'.requests + 1) else r'
  }

  /** Kick a replaced client from the other room it sat in, if that room is still registered. */
  function Kick(t: Table, rid: RoomId, replaced: Option<Session>, onKick: seq<bool>): (after: Table) {
    if replaced.Some? && replaced.value.room != rid && replaced.value.room in t.rooms
    then
      var from := replaced.value.room;
      t.(rooms := t.rooms[from := LeaveInRoom(t.rooms[from], replaced.value.client, onKick)])
    else t
  }

  function JoinRoom(t: Table, u: UserId, c: ClientId, rid: RoomId, h: Hooks): (r: (Table, Option<Error>)) {
    if rid !in t.rooms then (t, Some(RoomNotFound))
    else
      var config := t.rooms[rid].config;
      match Admit(t.sessions, u, c, rid, config)
      case Rejected => (t, Some(AlreadyInRoomOfType))
      case Admitted(sessions, replaced) =>
        var a := JoinActionFor(rid, replaced, u, c, h);
        var outcome := OutcomeOf(t.rooms[rid], a);
        var t' := Table(t.rooms[rid := RoomAfterJoin(t.rooms[rid], a)], sessions);
        if outcome.Refused? then
          var sessions' := if config.mode != Allow then Rollback(sessions, u, c, config.typ) else sessions;
          (t'.(sessions := sessions'), Some(outcome.error))
        else (Kick(t', rid, replaced, h.onKick), None)
  }

  function LeaveRoom(t: Table, u: UserId, c: ClientId, rid: RoomId, onLeave: seq<bool>): (after: Table) {
    if rid !in t.rooms then t
    else
      Table(t.rooms[rid := LeaveInRoom(t.rooms[rid], c, onLeave)],
            Release(t.sessions, u, c, rid, t.rooms[rid].config))
  }

  function RemoveRoom(t: Table, rid: RoomId): (after: Table) {
    if rid !in t.rooms then t
    else Table(t.rooms - {rid}, Cleanup(t.sessions, t.rooms[rid].config.typ, rid))
  }

  function CreateRoom(t: Table, rid: RoomId, config: Config, keep: bool): (after: Table) {
    t.(rooms := t.rooms[rid := NewRoom(config, keep)])
  }

  // ---------------------------------------------------------------- agreement of records and seats

  /** Client c holds a seat, as user u, in a registered room of type w that keeps records. */
  ghost predicate HasSeat(t: Table, u: UserId, w: RoomType, x: Session) {
    && x.room in t.rooms
    && t.rooms[x.room].config.typ == w && t.rooms[x.room].config.mode != Allow
    && x.client in t.rooms[x.room].players && t.rooms[x.room].players[x.client] == u
  }

  /** The record of a user and type is exactly the seat the user holds in that type. */
  ghost predicate Agree(t: Table) {
    forall u, w, x :: HasSeat(t, u, w, x) <==> Lookup(t.sessions, u, w) == Some(x)
  }

  ghost predicate AllWithinCapacity(t: Table) {
    forall rid :: rid in t.rooms ==> WithinCapacity(t.rooms[rid])
  }

  /** Client c sits anywhere only as user u. */
  ghost predicate BelongsTo(t: Table, c: ClientId, u: UserId) {
    forall rid :: rid in t.rooms && c in t.rooms[rid].players ==> t.rooms[rid].players[c] == u
  }

  /**
   The joins that part record from seat, told before the call: the user already has a record of
   the room's type, and the room is closed, or full unless one of its own seats is to be swapped,
   or its mode is none of the declared ones and the record is another's.
   */
  ghost predicate Parts(t: Table, u: UserId, c: ClientId, rid: RoomId) {
    && rid in t.rooms && t.rooms[rid].config.mode != Allow
    && var r := t.rooms[rid];
       var current := Lookup(t.sessions, u, r.config.typ);
       && current.Some?
       && if current.value == Session(rid, c) then !r.isOpen || Full(r)
          else match r.config.mode
               case Reject => false
               case Replace => !r.isOpen || (current.value.room != rid && Full(r))
               case Other(_) => true
  }

  /** The players of a room after a leave, whatever the hooks do. */
  lemma LeaveInRoomFrame(r: RoomState, c: ClientId, onLeave: seq<bool>)
    ensures var r' := LeaveInRoom(r, c, onLeave);
            r'.players == r.players - {c} && r'.config == r.config && r'.isOpen == r.isOpen
            && (WithinCapacity(r) ==> WithinCapacity(r'))
  {
    DropFrame(r, c, onLeave);
  }

  /** With a player in it a room is not scheduled for removal, whatever its hooks do. */
  lemma {:induction false} HookOverPlayers(r: RoomState, calls: seq<bool>)
    requires !IsEmpty(r)
    ensures var h := RunHook(r, calls);
            h.requests == r.requests && (h.emptyTimer == r.emptyTimer || h.emptyTimer == NoTimer)
    decreases |calls|
  {
    if calls == [] {
    } else {
      HookOverPlayers(SetKeepOnEmpty(r, calls[0]), calls[1..]);
    }
  }

  /** With a grace a hook requests nothing, and leaves no timer armed in a room it keeps. */
  lemma {:induction false} HookOverNobody(r: RoomState, calls: seq<bool>)
    requires r.config.grace > 0
    ensures var h := RunHook(r, calls);
            h.requests == r.requests && (KeptIsDisarmed(r) && h.keepOnEmpty ==> h.emptyTimer != Armed)
    decreases |calls|
  {
    if calls == [] {
    } else {
      HookOverNobody(SetKeepOnEmpty(r, calls[0]), calls[1..]);
    }
  }

  /**
   What a leave does about the removal of its room, told from the state before it: nothing while
   somebody else is left; when the last player leaves, a room that its hook does not leave kept requests
   its removal, or arms the timer if it has a grace.
   */
  lemma LeaveRequestsExactly(r: RoomState, c: ClientId, onLeave: seq<bool>)
    requires KeptIsDisarmed(r)
    ensures var r' := LeaveInRoom(r, c, onLeave);
            && (!Sole(r, c) && !IsEmpty(r) ==>
                  r'.requests == r.requests && (r'.emptyTimer == Armed ==> r.emptyTimer == Armed))
            && (c !in r.players ==> r' == r)
            && (Sole(r, c) && r.config.grace <= 0 ==>
                  (r'.requests > r.requests <==>
                     ReleasesKeep(r.keepOnEmpty, onLeave) || !LastKeep(r.keepOnEmpty, onLeave)))
            && (Sole(r, c) && r.config.grace > 0 ==>
                  r'.requests == r.requests && (r'.emptyTimer == Armed <==> !LastKeep(r.keepOnEmpty, onLeave)))
            && (Sole(r, c) && onLeave == [] && !r.keepOnEmpty && r.config.grace <= 0 ==>
                  r'.requests == r.requests + 1)
  {
    DropRequestsExactly(r, c, onLeave);
    DropKeeps(r, c, onLeave);
    DropFrame(r, c, onLeave);
    if c in r.players {
      var r1 := r.(players := r.players - {c});
      if Sole(r, c) {
        assert r1.players.Keys == {};
        if r.config.grace > 0 {
          HookOverNobody(r1, onLeave);
        }
      } else {
        var d :| d in r.players && d != c;
        assert d in r1.players;
        HookOverPlayers(r1, onLeave);
      }
    }
  }

  /** A new player's join leaves no removal pending in its room but requests issued before. */
  lemma JoinDisarms(r: RoomState, c: ClientId, u: UserId, onJoin: seq<bool>)
    requires OutcomeOf(r, DoJoin(c, u, onJoin)) == Seated(true)
    ensures var r' := Act(r, DoJoin(c, u, onJoin));
            r'.emptyTimer == NoTimer && r'.requests == r.requests && r'.callbacks == r.callbacks
  {
    var r1 := CancelEmptyRemoval(r.(players := r.players[c := u]));
    assert c in r1.players;
    HookOverPlayers(r1, onJoin);
  }

  /** What a join does to the target room's players, and when it is refused. */
  lemma JoinFrame(r: RoomState, rid: RoomId, replaced: Option<Session>, u: UserId, c: ClientId, h: Hooks)
    requires WithinCapacity(r)
    ensures var a := JoinActionFor(rid, replaced, u, c, h);
            var swap := replaced.Some? && replaced.value.room == rid;
            var r' := RoomAfterJoin(r, a);
            && r'.config == r.config && WithinCapacity(r')
            && (OutcomeOf(r, a).Refused? <==> !r.isOpen || (Full(r) && !(swap && replaced.value.client in r.players)))
            && (OutcomeOf(r, a).Refused? ==> r' == r)
            && (OutcomeOf(r, a).Seated? ==>
                  r'.players == if swap then (r.players - {replaced.value.client})[c := u]
                                else if c in r.players then r.players else r.players[c := u])
  {
    var a := JoinActionFor(rid, replaced, u, c, h);
    ActKeepsCapacity(r, a);
    SeatFrame(r, c, u, h.onJoin);
    if replaced.Some? {
      ReplaceAllOrNothing(r, replaced.value.client, c, u, h.onLeave, h.onJoin);
    }
  }

  /** The user holds the record of the room's type for something else than this seat. */
  ghost predicate HeldElsewhere(t: Table, u: UserId, c: ClientId, rid: RoomId)
    requires rid in t.rooms
  {
    var current := Lookup(t.sessions, u, t.rooms[rid].config.typ);
    t.rooms[rid].config.mode != Allow && current.Some? && current.value != Session(rid, c)
  }

  /** The client takes the seat of another one in the same room. */
  ghost predicate Swaps(t: Table, u: UserId, c: ClientId, rid: RoomId)
    requires rid in t.rooms
  {
    && t.rooms[rid].config.mode == Replace && HeldElsewhere(t, u, c, rid)
    && var current := Lookup(t.sessions, u, t.rooms[rid].config.typ).value;
       current.room == rid && current.client in t.rooms[rid].players
  }

  /** Which error a join returns, told from the state before it; and an error changes no room. */
  lemma JoinErrorsExactly(t: Table, u: UserId, c: ClientId, rid: RoomId, h: Hooks)
    requires AllWithinCapacity(t)
    ensures var (t', err) := JoinRoom(t, u, c, rid, h);
            && (err == Some(RoomNotFound) <==> rid !in t.rooms)
            && (err.Some? ==> t'.rooms == t.rooms)
            && (rid in t.rooms ==>
                  var r := t.rooms[rid];
                  var rejected := r.config.mode == Reject && HeldElsewhere(t, u, c, rid);
                  && (err == Some(AlreadyInRoomOfType) <==> rejected)
                  && (err == Some(RoomClosed) <==> !rejected && !r.isOpen)
                  && (err == Some(RoomFull) <==> !rejected && r.isOpen && Full(r) && !Swaps(t, u, c, rid))
                  && (err == None ==> t'.rooms.Keys == t.rooms.Keys && c in t'.rooms[rid].players))
  {
    if rid in t.rooms && Admit(t.sessions, u, c, rid, t.rooms[rid].config).Admitted? {
      AdmittedErrors(t, u, c, rid, h);
      AdmittedSeats(t, u, c, rid, h);
    }
  }

  /** A client the manager admits is refused exactly by a closed room, or a full one without a swap. */
  lemma AdmittedErrors(t: Table, u: UserId, c: ClientId, rid: RoomId, h: Hooks)
    requires rid in t.rooms && WithinCapacity(t.rooms[rid])
    requires Admit(t.sessions, u, c, rid, t.rooms[rid].config).Admitted?
    ensures var r := t.rooms[rid];
            JoinRoom(t, u, c, rid, h).1 ==
            if !r.isOpen then Some(RoomClosed)
            else if Full(r) && !Swaps(t, u, c, rid) then Some(RoomFull)
            else None
  {
    var replaced := Admit(t.sessions, u, c, rid, t.rooms[rid].config).replaced;
    JoinFrame(t.rooms[rid], rid, replaced, u, c, h);
    JoinClosureErrors(t.rooms[rid], rid, replaced, u, c, h);
  }

  /** It is seated, or no room has changed. */
  lemma AdmittedSeats(t: Table, u: UserId, c: ClientId, rid: RoomId, h: Hooks)
    requires rid in t.rooms && WithinCapacity(t.rooms[rid])
    requires Admit(t.sessions, u, c, rid, t.rooms[rid].config).Admitted?
    ensures var (t', err) := JoinRoom(t, u, c, rid, h);
            if err.Some? then t'.rooms == t.rooms else t'.rooms.Keys == t.rooms.Keys && c in t'.rooms[rid].players
  {
    JoinFrame(t.rooms[rid], rid, Admit(t.sessions, u, c, rid, t.rooms[rid].config).replaced, u, c, h);
  }

  lemma JoinClosureErrors(r: RoomState, rid: RoomId, replaced: Option<Session>, u: UserId, c: ClientId, h: Hooks)
    requires WithinCapacity(r)
    ensures var outcome := OutcomeOf(r, JoinActionFor(rid, replaced, u, c, h));
            outcome.Refused? ==> outcome.error == if r.isOpen then RoomFull else RoomClosed
  {}

  lemma CreateKeepsAgree(t: Table, rid: RoomId, config: Config, keep: bool)
    requires Agree(t) && rid !in t.rooms
    ensures Agree(CreateRoom(t, rid, config, keep))
  {
    var t' := CreateRoom(t, rid, config, keep);
    forall u, w, x ensures HasSeat(t', u, w, x) <==> Lookup(t'.sessions, u, w) == Some(x) {
      assert HasSeat(t, u, w, x) <==> Lookup(t.sessions, u, w) == Some(x);
    }
  }

  lemma RemoveKeepsAgree(t: Table, rid: RoomId)
    requires Agree(t)
    ensures Agree(RemoveRoom(t, rid))
  {
    var t' := RemoveRoom(t, rid);
    forall u, w, x ensures HasSeat(t', u, w, x) <==> Lookup(t'.sessions, u, w) == Some(x) {
      assert HasSeat(t, u, w, x) <==> Lookup(t.sessions, u, w) == Some(x);
    }
  }

  lemma LeaveKeepsAgree(t: Table, u: UserId, c: ClientId, rid: RoomId, onLeave: seq<bool>)
    requires Agree(t) && BelongsTo(t, c, u)
    ensures Agree(LeaveRoom(t, u, c, rid, onLeave))
  {
    if rid in t.rooms {
      var t' := LeaveRoom(t, u, c, rid, onLeave);
      LeaveInRoomFrame(t.rooms[rid], c, onLeave);
      assert HasSeat(t, u, t.rooms[rid].config.typ, Session(rid, c)) <==>
             Lookup(t.sessions, u, t.rooms[rid].config.typ) == Some(Session(rid, c));
      forall v, w, x ensures HasSeat(t', v, w, x) <==> Lookup(t'.sessions, v, w) == Some(x) {
        assert HasSeat(t, v, w, x) <==> Lookup(t.sessions, v, w) == Some(x);
      }
    }
  }

  /** A join refused inside the room leaves every seat, and at most loses the user's record. */
  lemma RefusedJoin(t: Table, u: UserId, c: ClientId, rid: RoomId, replaced: Option<Session>, h: Hooks)
    requires Agree(t) && rid in t.rooms && WithinCapacity(t.rooms[rid])
    requires var admission := Admit(t.sessions, u, c, rid, t.rooms[rid].config);
             admission.Admitted? && admission.replaced == replaced
    requires OutcomeOf(t.rooms[rid], JoinActionFor(rid, replaced, u, c, h)).Refused?
    ensures var t' := JoinRoom(t, u, c, rid, h).0;
            Agree(t') <==> t.rooms[rid].config.mode == Allow || Lookup(t.sessions, u, t.rooms[rid].config.typ).None?
  {
    var t' := JoinRoom(t, u, c, rid, h).0;
    var typ := t.rooms[rid].config.typ;
    JoinFrame(t.rooms[rid], rid, replaced, u, c, h);
    assert t'.rooms == t.rooms;
    if t.rooms[rid].config.mode == Allow || Lookup(t.sessions, u, typ).None? {
      forall v, w, x ensures HasSeat(t', v, w, x) <==> Lookup(t'.sessions, v, w) == Some(x) {
        assert HasSeat(t, v, w, x) <==> Lookup(t.sessions, v, w) == Some(x);
      }
    } else {
      var x := Lookup(t.sessions, u, typ).value;
      assert HasSeat(t, u, typ, x);
      assert HasSeat(t', u, typ, x) && Lookup(t'.sessions, u, typ).None?;
    }
  }

  /** A join that seats a client of a user without a record of the type, or is idempotent. */
  lemma SeatedFirst(t: Table, u: UserId, c: ClientId, rid: RoomId, h: Hooks)
    requires Agree(t) && BelongsTo(t, c, u) && rid in t.rooms && WithinCapacity(t.rooms[rid])
    requires var config := t.rooms[rid].config;
             config.mode == Allow || Lookup(t.sessions, u, config.typ) in {None, Some(Session(rid, c))}
    requires OutcomeOf(t.rooms[rid], JoinActionFor(rid, None, u, c, h)).Seated?
    ensures Agree(JoinRoom(t, u, c, rid, h).0)
  {
    var t' := JoinRoom(t, u, c, rid, h).0;
    JoinFrame(t.rooms[rid], rid, None, u, c, h);
    forall v, w, x ensures HasSeat(t', v, w, x) <==> Lookup(t'.sessions, v, w) == Some(x) {
      assert HasSeat(t, v, w, x) <==> Lookup(t.sessions, v, w) == Some(x);
    }
  }

  /** A newcomer takes over the seat of another client of the user in the same room. */
  lemma SeatedBySwap(t: Table, u: UserId, c: ClientId, rid: RoomId, h: Hooks)
    requires Agree(t) && BelongsTo(t, c, u) && rid in t.rooms && WithinCapacity(t.rooms[rid])
    requires t.rooms[rid].config.mode == Replace && t.rooms[rid].isOpen
    requires var current := Lookup(t.sessions, u, t.rooms[rid].config.typ);
             current.Some? && current.value.room == rid && current.value.client != c
    ensures Agree(JoinRoom(t, u, c, rid, h).0)
  {
    var t' := JoinRoom(t, u, c, rid, h).0;
    var typ := t.rooms[rid].config.typ;
    var taken := Lookup(t.sessions, u, typ).value;
    assert HasSeat(t, u, typ, taken);
    assert HasSeat(t, u, typ, Session(rid, c)) <==> Lookup(t.sessions, u, typ) == Some(Session(rid, c));
    JoinFrame(t.rooms[rid], rid, Some(taken), u, c, h);
    forall v, w, x ensures HasSeat(t', v, w, x) <==> Lookup(t'.sessions, v, w) == Some(x) {
      assert HasSeat(t, v, w, x) <==> Lookup(t.sessions, v, w) == Some(x);
    }
  }

  /** A newcomer is seated in another room of the type, and the old client is kicked from its own. */
  lemma SeatedByMove(t: Table, u: UserId, c: ClientId, rid: RoomId, h: Hooks)
    requires Agree(t) && BelongsTo(t, c, u) && rid in t.rooms && WithinCapacity(t.rooms[rid])
    requires t.rooms[rid].config.mode == Replace && t.rooms[rid].isOpen && !Full(t.rooms[rid])
    requires var current := Lookup(t.sessions, u, t.rooms[rid].config.typ);
             current.Some? && current.value.room != rid
    ensures Agree(JoinRoom(t, u, c, rid, h).0)
  {
    var t' := JoinRoom(t, u, c, rid, h).0;
    var typ := t.rooms[rid].config.typ;
    var taken := Lookup(t.sessions, u, typ).value;
    assert HasSeat(t, u, typ, taken);
    assert HasSeat(t, u, typ, Session(rid, c)) <==> Lookup(t.sessions, u, typ) == Some(Session(rid, c));
    JoinFrame(t.rooms[rid], rid, Some(taken), u, c, h);
    LeaveInRoomFrame(t.rooms[taken.room], taken.client, h.onKick);
    forall v, w, x ensures HasSeat(t', v, w, x) <==> Lookup(t'.sessions, v, w) == Some(x) {
      assert HasSeat(t, v, w, x) <==> Lookup(t.sessions, v, w) == Some(x);
    }
  }

  /** An undeclared mode: the newcomer's record is written over another seat's. */
  lemma SeatedOver(t: Table, u: UserId, c: ClientId, rid: RoomId, h: Hooks)
    requires Agree(t) && rid in t.rooms && WithinCapacity(t.rooms[rid]) && t.rooms[rid].config.mode.Other?
    requires var current := Lookup(t.sessions, u, t.rooms[rid].config.typ);
             current.Some? && current.value != Session(rid, c)
    requires OutcomeOf(t.rooms[rid], JoinActionFor(rid, None, u, c, h)).Seated?
    ensures !Agree(JoinRoom(t, u, c, rid, h).0)
  {
    var t' := JoinRoom(t, u, c, rid, h).0;
    var typ := t.rooms[rid].config.typ;
    var x := Lookup(t.sessions, u, typ).value;
    assert HasSeat(t, u, typ, x);
    JoinFrame(t.rooms[rid], rid, None, u, c, h);
    if x.client == c && x.room == rid {
    } else if x.room == rid {
      assert x.client in t'.rooms[rid].players && t'.rooms[rid].players[x.client] == u;
    }
    assert HasSeat(t', u, typ, x) && Lookup(t'.sessions, u, typ) != Some(x);
  }

  /**
   Record/seat agreement, exactly: a join run by itself keeps every user's records equal to the
   seats the user holds if and only if it is not one of the joins that part them.
   */
  lemma JoinKeepsAgreeIff(t: Table, u: UserId, c: ClientId, rid: RoomId, h: Hooks)
    requires Agree(t) && AllWithinCapacity(t) && BelongsTo(t, c, u)
    ensures Agree(JoinRoom(t, u, c, rid, h).0) <==> !Parts(t, u, c, rid)
  {
    if rid in t.rooms {
      var r := t.rooms[rid];
      var current := Lookup(t.sessions, u, r.config.typ);
      match Admit(t.sessions, u, c, rid, r.config)
      case Rejected =>
      case Admitted(sessions, replaced) =>
        JoinFrame(r, rid, replaced, u, c, h);
        if current.Some? {
          assert HasSeat(t, u, r.config.typ, current.value);
        }
        if OutcomeOf(r, JoinActionFor(rid, replaced, u, c, h)).Refused? {
          RefusedJoin(t, u, c, rid, replaced, h);
        } else if replaced.Some? && replaced.value.room == rid {
          SeatedBySwap(t, u, c, rid, h);
        } else if replaced.Some? {
          SeatedByMove(t, u, c, rid, h);
        } else if r.config.mode.Other? && current.Some? && current.value != Session(rid, c) {
          SeatedOver(t, u, c, rid, h);
        } else {
          SeatedFirst(t, u, c, rid, h);
        }
    }
  }

  /** Every player of t' sat in t already, under the same user, or is client c as user u. */
  ghost predicate PlayersFrom(t: Table, t': Table, c: ClientId, u: UserId) {
    forall rid, d :: rid in t'.rooms && d in t'.rooms[rid].players ==>
      || (d == c && t'.rooms[rid].players[d] == u)
      || (rid in t.rooms && d in t.rooms[rid].players && t.rooms[rid].players[d] == t'.rooms[rid].players[d])
  }

  lemma KickFrame(t: Table, rid: RoomId, replaced: Option<Session>, onKick: seq<bool>)
    requires AllWithinCapacity(t)
    ensures AllWithinCapacity(Kick(t, rid, replaced, onKick))
    ensures forall c, u :: PlayersFrom(t, Kick(t, rid, replaced, onKick), c, u)
  {
    if replaced.Some? && replaced.value.room in t.rooms {
      LeaveInRoomFrame(t.rooms[replaced.value.room], replaced.value.client, onKick);
    }
  }

  /** The same of the join's part in the target room. */
  lemma EnterFrame(t: Table, rid: RoomId, ss: Sessions, replaced: Option<Session>, u: UserId, c: ClientId, h: Hooks)
    requires AllWithinCapacity(t) && rid in t.rooms
    ensures var t' := Table(t.rooms[rid := RoomAfterJoin(t.rooms[rid], JoinActionFor(rid, replaced, u, c, h))], ss);
            AllWithinCapacity(t') && PlayersFrom(t, t', c, u)
  {
    var r := t.rooms[rid];
    JoinFrame(r, rid, replaced, u, c, h);
    var r' := RoomAfterJoin(r, JoinActionFor(rid, replaced, u, c, h));
    assert forall d :: d in r'.players && !(d == c && r'.players[d] == u) ==>
                         d in r.players && r.players[d] == r'.players[d];
  }

  lemma JoinSeatsOnlyItsClient(t: Table, u: UserId, c: ClientId, rid: RoomId, h: Hooks)
    requires AllWithinCapacity(t)
    ensures AllWithinCapacity(JoinRoom(t, u, c, rid, h).0) && PlayersFrom(t, JoinRoom(t, u, c, rid, h).0, c, u)
  {
    if rid in t.rooms && Admit(t.sessions, u, c, rid, t.rooms[rid].config).Admitted? {
      var Admitted(sessions, replaced) := Admit(t.sessions, u, c, rid, t.rooms[rid].config);
      var a := JoinActionFor(rid, replaced, u, c, h);
      var t' := Table(t.rooms[rid := RoomAfterJoin(t.rooms[rid], a)], sessions);
      EnterFrame(t, rid, sessions, replaced, u, c, h);
      var t2 := Kick(t', rid, replaced, h.onKick);
      KickFrame(t', rid, replaced, h.onKick);
      assert PlayersFrom(t', t2, c, u);
      assert PlayersFrom(t, t2, c, u);
    }
  }

  /** A seated client refused a rejoin loses its record, and is then admitted to another room of the type. */
  lemma RefusedRejoinThenSecondSeat(t: Table, u: UserId, c: ClientId, rid: RoomId, other: RoomId)
    requires rid in t.rooms && other in t.rooms && rid != other && AllWithinCapacity(t)
    requires var r, o := t.rooms[rid], t.rooms[other];
             && r.config.mode == Reject && o.config.mode == Reject && r.config.typ == o.config.typ
             && c in r.players && (Full(r) || !r.isOpen)
             && o.isOpen && !Full(o)
    requires Lookup(t.sessions, u, t.rooms[rid].config.typ) == Some(Session(rid, c))
    ensures var t1 := JoinRoom(t, u, c, rid, NO_HOOKS).0;
            var t2 := JoinRoom(t1, u, c, other, NO_HOOKS).0;
            && t1.rooms == t.rooms
            && t2.rooms.Keys == t.rooms.Keys && t2.rooms[rid] == t.rooms[rid] && c in t2.rooms[other].players
  {
    JoinFrame(t.rooms[rid], rid, None, u, c, NO_HOOKS);
    JoinFrame(t.rooms[other], other, None, u, c, NO_HOOKS);
    var t1 := JoinRoom(t, u, c, rid, NO_HOOKS).0;
    assert t1.rooms == t.rooms;
    assert Lookup(t1.sessions, u, t.rooms[rid].config.typ) == None;
  }

  /** Taking over a record whose client is not seated yet kicks nobody and leaves that room as it was. */
  lemma TakeoverOfUnseated(t: Table, u: UserId, c: ClientId, rid: RoomId, early: Session)
    requires rid in t.rooms && early.room in t.rooms && rid != early.room && AllWithinCapacity(t)
    requires var r := t.rooms[rid]; r.config.mode == Replace && r.isOpen && !Full(r)
    requires Lookup(t.sessions, u, t.rooms[rid].config.typ) == Some(early)
    requires early.client !in t.rooms[early.room].players
    ensures var t' := JoinRoom(t, u, c, rid, NO_HOOKS).0;
            t'.rooms.Keys == t.rooms.Keys && t'.rooms[early.room] == t.rooms[early.room] && c in t'.rooms[rid].players
  {
    JoinFrame(t.rooms[rid], rid, Some(early), u, c, NO_HOOKS);
    LeaveInRoomFrame(t.rooms[early.room], early.client, []);
  }

  // ---------------------------------------------------------------- sequential runs

  /** One whole request; a client always acts as the user it belongs to. */
  datatype Request =
    | Join(c: ClientId, rid: RoomId, h: Hooks)
    | Leave(c: ClientId, rid: RoomId, onLeave: seq<bool>)
    | Remove(rid: RoomId)
    | Create(rid: RoomId, config: Config, keep: bool)
    | Inside(rid: RoomId, keep: bool, open: bool)

  ghost function Serve(t: Table, owner: ClientId -> UserId, q: Request): (after: Table) {
    match q
    case Join(c, rid, h) => JoinRoom(t, owner(c), c, rid, h).0
    case Leave(c, rid, onLeave) => LeaveRoom(t, owner(c), c, rid, onLeave)
    case Remove(rid) => RemoveRoom(t, rid)
    case Create(rid, config, keep) => if rid in t.rooms then t else CreateRoom(t, rid, config, keep)
    case Inside(rid, keep, open) =>
      if rid in t.rooms then t.(rooms := t.rooms[rid := SetKeepOnEmpty(t.rooms[rid], keep).(isOpen := open)]) else t
  }

  ghost function ServeAll(t: Table, owner: ClientId -> UserId, qs: seq<Request>): (after: Table)
    decreases |qs|
  {
    if qs == [] then t else ServeAll(Serve(t, owner, qs[0]), owner, qs[1..])
  }

  /** No join of the run is one of those that part record from seat. */
  ghost predicate NeverParts(t: Table, owner: ClientId -> UserId, qs: seq<Request>)
    decreases |qs|
  {
    qs == [] ||
    (&& !(qs[0].Join? && Parts(t, owner(qs[0].c), qs[0].c, qs[0].rid))
     && NeverParts(Serve(t, owner, qs[0]), owner, qs[1..]))
  }

  ghost predicate Sound(t: Table, owner: ClientId -> UserId) {
    Agree(t) && AllWithinCapacity(t) && forall c :: BelongsTo(t, c, owner(c))
  }

  lemma LeaveSeatsNobody(t: Table, u: UserId, c: ClientId, rid: RoomId, onLeave: seq<bool>)
    requires AllWithinCapacity(t)
    ensures AllWithinCapacity(LeaveRoom(t, u, c, rid, onLeave))
    ensures forall d, v :: PlayersFrom(t, LeaveRoom(t, u, c, rid, onLeave), d, v)
  {
    if rid in t.rooms {
      LeaveInRoomFrame(t.rooms[rid], c, onLeave);
    }
  }

  lemma InsideSeatsNobody(t: Table, rid: RoomId, keep: bool, open: bool)
    requires AllWithinCapacity(t) && rid in t.rooms
    ensures var t' := t.(rooms := t.rooms[rid := SetKeepOnEmpty(t.rooms[rid], keep).(isOpen := open)]);
            AllWithinCapacity(t') && forall d, v :: PlayersFrom(t, t', d, v)
  {}

  lemma ServeFrame(t: Table, owner: ClientId -> UserId, q: Request)
    requires AllWithinCapacity(t)
    ensures var c := if q.Join? then q.c else 0;
            AllWithinCapacity(Serve(t, owner, q)) && PlayersFrom(t, Serve(t, owner, q), c, owner(c))
  {
    match q
    case Join(c, rid, h) => JoinSeatsOnlyItsClient(t, owner(c), c, rid, h);
    case Leave(c, rid, onLeave) => LeaveSeatsNobody(t, owner(c), c, rid, onLeave);
    case Inside(rid, keep, open) =>
      if rid in t.rooms {
        InsideSeatsNobody(t, rid, keep, open);
      }
    case _ =>
  }

  lemma ServeKeepsAgree(t: Table, owner: ClientId -> UserId, q: Request)
    requires Sound(t, owner) && !(q.Join? && Parts(t, owner(q.c), q.c, q.rid))
    ensures Agree(Serve(t, owner, q))
  {
    match q
    case Join(c, rid, h) => JoinKeepsAgreeIff(t, owner(c), c, rid, h);
    case Leave(c, rid, onLeave) => LeaveKeepsAgree(t, owner(c), c, rid, onLeave);
    case Remove(rid) => RemoveKeepsAgree(t, rid);
    case Create(rid, config, keep) =>
      if rid !in t.rooms {
        CreateKeepsAgree(t, rid, config, keep);
      }
    case Inside(rid, keep, open) =>
      var t' := Serve(t, owner, q);
      forall u, w, x ensures HasSeat(t', u, w, x) <==> Lookup(t'.sessions, u, w) == Some(x) {
        assert HasSeat(t, u, w, x) <==> Lookup(t.sessions, u, w) == Some(x);
      }
  }

  lemma ServeKeepsSound(t: Table, owner: ClientId -> UserId, q: Request)
    requires Sound(t, owner) && !(q.Join? && Parts(t, owner(q.c), q.c, q.rid))
    ensures Sound(Serve(t, owner, q), owner)
  {
    ServeKeepsAgree(t, owner, q);
    ServeFrame(t, owner, q);
    forall d ensures BelongsTo(Serve(t, owner, q), d, owner(d)) {
      assert BelongsTo(t, d, owner(d));
    }
  }

  lemma {:induction false} RunKeepsSound(t: Table, owner: ClientId -> UserId, qs: seq<Request>)
    requires Sound(t, owner) && NeverParts(t, owner, qs)
    ensures Sound(ServeAll(t, owner, qs), owner)
    decreases |qs|
  {
    if qs == [] {
    } else {
      ServeKeepsSound(t, owner, qs[0]);
      RunKeepsSound(Serve(t, owner, qs[0]), owner, qs[1..]);
    }
  }

  /**
   Over every sequential run without a parting join, a record names exactly the seat its user
   holds in the type, so a user never holds two seats of one type.
   */
  lemma SequentialAgreement(owner: ClientId -> UserId, qs: seq<Request>)
    requires NeverParts(Table(map[], map[]), owner, qs)
    ensures var t := ServeAll(Table(map[], map[]), owner, qs);
            && (forall u, w, x :: HasSeat(t, u, w, x) <==> Lookup(t.sessions, u, w) == Some(x))
            && (forall u, w, x, y :: HasSeat(t, u, w, x) && HasSeat(t, u, w, y) ==> x == y)
  {
    var t := ServeAll(Table(map[], map[]), owner, qs);
    RunKeepsSound(Table(map[], map[]), owner, qs);
    forall u, w, x, y | HasSeat(t, u, w, x) && HasSeat(t, u, w, y) ensures x == y {
      assert Lookup(t.sessions, u, w) == Some(x) && Lookup(t.sessions, u, w) == Some(y);
    }
  }
}
