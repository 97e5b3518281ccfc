/**
 The state a room actor guards, and the closures its methods submit to the inbox, as
 functions on that state. The classes and the small-step protocol both refer to them.
 */
module RoomModel {
  import opened Base

  /** A mode outside the three declared ones can arrive in a create request: it is a plain byte. */
  datatype Mode = Allow | Reject | Replace | Other(code: nat)

  datatype Error = RoomNotFound | RoomFull | RoomClosed | AlreadyInRoomOfType

  /** grace is the EmptyGrace duration; maxPlayers 0 means unlimited. */
  datatype Config = Config(typ: RoomType, maxPlayers: uint16, mode: Mode, grace: int)

  /** The emptyTimer field: nil, pending, or non-nil although its callback has already started. */
  datatype Timer = NoTimer | Armed | Fired

  /**
   players maps a client to the user it joined as. callbacks counts started timer callbacks
   whose closure has not run yet, requests the `go r.onEmpty(id)` calls issued so far that
   the manager has not served.
   */
  datatype RoomState = RoomState(
    config: Config,
    players: map<ClientId, UserId>,
    isOpen: bool,
    keepOnEmpty: bool,
    emptyTimer: Timer,
    callbacks: nat,
    requests: nat)

  datatype Outcome = Seated(isNew: bool) | Refused(error: Error, becameEmpty: bool)

  function NewRoom(config: Config, keep: bool): (r: RoomState) {
    RoomState(config, map[], true, keep, NoTimer, 0, 0)
  }

  predicate IsEmpty(r: RoomState) {
    r.players == map[]
  }

  /** The fullness test as written: the player count is narrowed before it is compared. */
  predicate Full(r: RoomState) {
    r.config.maxPlayers > 0 && Narrow(|r.players|) >= r.config.maxPlayers
  }

  function CancelEmptyRemoval(r: RoomState): (after: RoomState) {
    r.(emptyTimer := NoTimer)
  }

  function ScheduleEmptyRemoval(r: RoomState): (after: RoomState) {
    if r.keepOnEmpty then r
    else if r.config.grace <= 0 then CancelEmptyRemoval(r).(requests := r.requests + 1)
    else r.(emptyTimer := Armed)
  }

  function SetKeepOnEmpty(r: RoomState, keep: bool): (after: RoomState) {
    var r' := r.(keepOnEmpty := keep);
    if keep then CancelEmptyRemoval(r')
    else if r.keepOnEmpty && IsEmpty(r') then ScheduleEmptyRemoval(r')
    else r'
  }

  /** A module hook is uninterpreted but for the SetKeepOnEmpty calls it makes, in order. */
  function RunHook(r: RoomState, calls: seq<bool>): (h: RoomState)
    ensures h.players == r.players && h.config == r.config && h.isOpen == r.isOpen && h.callbacks == r.callbacks
    decreases |calls|
  {
    if calls == [] then r else RunHook(SetKeepOnEmpty(r, calls[0]), calls[1..])
  }

  function Seat(r: RoomState, c: ClientId, u: UserId, onJoin: seq<bool>): (after: RoomState) {
    RunHook(CancelEmptyRemoval(r.(players := r.players[c := u])), onJoin)
  }

  function JoinBody(r: RoomState, c: ClientId, u: UserId, onJoin: seq<bool>): (result: (RoomState, Outcome)) {
    if !r.isOpen then (r, Refused(RoomClosed, false))
    else if Full(r) then (r, Refused(RoomFull, false))
    else if c in r.players then (r, Seated(false))
    else (Seat(r, c, u, onJoin), Seated(true))
  }

  function DropOld(r: RoomState, prev: ClientId, onLeave: seq<bool>): (after: RoomState) {
    if prev in r.players then RunHook(r.(players := r.players - {prev}), onLeave) else r
  }

  function ReplaceBody(r: RoomState, prev: ClientId, c: ClientId, u: UserId,
                       onLeave: seq<bool>, onJoin: seq<bool>): (result: (RoomState, Outcome)) {
    if !r.isOpen then (r, Refused(RoomClosed, false))
    else
      var r' := DropOld(r, prev, onLeave);
      if Full(r') then (r', Refused(RoomFull, IsEmpty(r') && !r'.keepOnEmpty))
      else (Seat(r', c, u, onJoin), Seated(true))
  }

  /** The room after Leave's closure; it reports whether c was seated before and the room is empty after. */
  function LeaveBody(r: RoomState, c: ClientId, onLeave: seq<bool>): (after: RoomState) {
    DropOld(r, c, onLeave)
  }

  /** The closure of one started timer callback. */
  function CallbackBody(r: RoomState): (after: RoomState) {
    var r' := if r.callbacks > 0 then r.(callbacks := r.callbacks - 1) else r;
    if !r.keepOnEmpty && IsEmpty(r) then r'.(requests := r.requests + 1) else r'
  }

  /** Everything that can run inside the actor and touch the state above. */
  datatype Action =
    | DoJoin(c: ClientId, u: UserId, onJoin: seq<bool>)
    | DoReplace(prev: ClientId, c: ClientId, u: UserId, onLeave: seq<bool>, onJoin: seq<bool>)
    | DoLeave(c: ClientId, onLeave: seq<bool>)
    | DoSchedule
    | DoCallback
    | DoKeep(keep: bool)
    | DoOpen(open: bool)

  function Act(r: RoomState, a: Action): (r': RoomState)
    ensures r'.config == r.config
  {
    match a
    case DoJoin(c, u, onJoin) => JoinBody(r, c, u, onJoin).0
    case DoReplace(prev, c, u, onLeave, onJoin) => ReplaceBody(r, prev, c, u, onLeave, onJoin).0
    case DoLeave(c, onLeave) => LeaveBody(r, c, onLeave)
    case DoSchedule => ScheduleEmptyRemoval(r)
    case DoCallback => CallbackBody(r)
    case DoKeep(keep) => SetKeepOnEmpty(r, keep)
    case DoOpen(open) => r.(isOpen := open)
  }

  /** What a join closure reports back to its caller. */
  function OutcomeOf(r: RoomState, a: Action): (outcome: Outcome) {
    match a
    case DoJoin(c, u, onJoin) => JoinBody(r, c, u, onJoin).1
    case DoReplace(prev, c, u, onLeave, onJoin) => ReplaceBody(r, prev, c, u, onLeave, onJoin).1
    case _ => Seated(false)
  }

  function ErrorOf(outcome: Outcome): (r: Option<Error>) {
    if outcome.Refused? then Some(outcome.error) else None
  }

  function RunActions(r: RoomState, actions: seq<Action>): (after: RoomState)
    decreases |actions|
  {
    if actions == [] then r else RunActions(Act(r, actions[0]), actions[1..])
  }

  ghost predicate WithinCapacity(r: RoomState) {
    r.config.maxPlayers > 0 ==> |r.players| <= r.config.maxPlayers
  }

  /** A kept room holds no armed timer. */
  ghost predicate KeptIsDisarmed(r: RoomState) {
    r.keepOnEmpty ==> r.emptyTimer != Armed
  }

  /** What a hook leaves alone, and what it may do to the removal machinery. */
  lemma {:induction false} HookFrame(r: RoomState, calls: seq<bool>)
    ensures var h := RunHook(r, calls);
            && r.requests <= h.requests
            && (r.requests < h.requests ==> IsEmpty(r) && r.config.grace <= 0)
            && (KeptIsDisarmed(r) ==> KeptIsDisarmed(h))
    decreases |calls|
  {
    if calls == [] {
    } else {
      HookFrame(SetKeepOnEmpty(r, calls[0]), calls[1..]);
    }
  }

  /** Dropping one entry of a map makes it smaller; adding one makes it at most one larger. */
  lemma SizeAfter<K, V>(m: map<K, V>, k: K, v: V)
    ensures |m[k := v]| == if k in m then |m| else |m| + 1
    ensures |m - {k}| == if k in m then |m| - 1 else |m|
  {
    assert m[k := v].Keys == m.Keys + {k};
    assert (m - {k}).Keys == m.Keys - {k};
  }

  /** s is r with c seated: occupied, disarmed if kept, nothing requested. */
  ghost predicate SeatedFrom(r: RoomState, s: RoomState, c: ClientId, u: UserId) {
    && s.players == r.players[c := u] && s.config == r.config && s.isOpen == r.isOpen
    && s.callbacks == r.callbacks && s.requests == r.requests
    && |s.players| == (if c in r.players then |r.players| else |r.players| + 1)
    && KeptIsDisarmed(s) && !IsEmpty(s)
  }

  /** d is r without prev: a request can only have come from a hook in an emptied graceless room. */
  ghost predicate DroppedFrom(r: RoomState, d: RoomState, prev: ClientId) {
    && d.players == r.players - {prev} && d.config == r.config && d.isOpen == r.isOpen
    && d.callbacks == r.callbacks && r.requests <= d.requests
    && (prev !in r.players ==> d == r)
    && |d.players| == (if prev in r.players then |r.players| - 1 else |r.players|)
    && (r.requests < d.requests ==> IsEmpty(d) && r.config.grace <= 0)
    && (KeptIsDisarmed(r) ==> KeptIsDisarmed(d))
  }

  lemma SeatFrame(r: RoomState, c: ClientId, u: UserId, onJoin: seq<bool>)
    ensures SeatedFrom(r, Seat(r, c, u, onJoin), c, u)
  {
    HookFrame(CancelEmptyRemoval(r.(players := r.players[c := u])), onJoin);
    SizeAfter(r.players, c, u);
    assert c in r.players[c := u];
  }

  lemma DropFrame(r: RoomState, prev: ClientId, onLeave: seq<bool>)
    ensures DroppedFrom(r, DropOld(r, prev, onLeave), prev)
  {
    HookFrame(r.(players := r.players - {prev}), onLeave);
    SizeAfter(r.players, prev, "");
    if prev !in r.players {
      assert r.players - {prev} == r.players;
    }
  }

  lemma FullIsExact(r: RoomState)
    requires WithinCapacity(r) && r.config.maxPlayers > 0
    ensures Full(r) <==> |r.players| == r.config.maxPlayers
  {}

  /** Seating is only reached past the fullness test. */
  lemma SeatKeepsCapacity(r: RoomState, c: ClientId, u: UserId, onJoin: seq<bool>)
    requires WithinCapacity(r) && !Full(r)
    ensures WithinCapacity(Seat(r, c, u, onJoin))
  {
    SeatFrame(r, c, u, onJoin);
    if r.config.maxPlayers > 0 {
      FullIsExact(r);
    }
  }

  lemma ReplaceKeepsCapacity(r: RoomState, prev: ClientId, c: ClientId, u: UserId, onLeave: seq<bool>,
                             onJoin: seq<bool>)
    requires WithinCapacity(r)
    ensures var r' := ReplaceBody(r, prev, c, u, onLeave, onJoin).0;
            WithinCapacity(r')
  {
    var d := DropOld(r, prev, onLeave);
    DropFrame(r, prev, onLeave);
    SeatFrame(d, c, u, onJoin);
    if !Full(d) {
      SeatKeepsCapacity(d, c, u, onJoin);
    }
  }

  lemma ActKeepsCapacity(r: RoomState, a: Action)
    requires WithinCapacity(r)
    ensures WithinCapacity(Act(r, a))
  {
    match a
    case DoJoin(c, u, onJoin) =>
      SeatFrame(r, c, u, onJoin);
      if !Full(r) {
        SeatKeepsCapacity(r, c, u, onJoin);
      }
    case DoReplace(prev, c, u, onLeave, onJoin) =>
      ReplaceKeepsCapacity(r, prev, c, u, onLeave, onJoin);
    case DoLeave(c, onLeave) =>
      DropFrame(r, c, onLeave);
    case _ =>
  }

  /** The frames of the bodies an action runs. */
  lemma ActFrames(r: RoomState, a: Action)
    ensures match a
            case DoJoin(c, u, onJoin) =>
              Act(r, a) == r || (c !in r.players && !Full(r) && SeatedFrom(r, Act(r, a), c, u))
            case DoReplace(prev, c, u, onLeave, onJoin) =>
              var d := DropOld(r, prev, onLeave);
              && DroppedFrom(r, d, prev)
              && (Act(r, a) == r || Act(r, a) == d || (!Full(d) && SeatedFrom(d, Act(r, a), c, u)))
            case DoLeave(c, onLeave) =>
              DroppedFrom(r, Act(r, a), c)
            case _ => true
  {
    match a
    case DoJoin(c, u, onJoin) =>
      SeatFrame(r, c, u, onJoin);
    case DoReplace(prev, c, u, onLeave, onJoin) =>
      DropFrame(r, prev, onLeave);
      SeatFrame(DropOld(r, prev, onLeave), c, u, onJoin);
    case DoLeave(c, onLeave) =>
      DropFrame(r, c, onLeave);
    case _ =>
  }

  /**
   Capacity over every run of the actor: a capped room never holds more players than its cap,
   so narrowing the count to sixteen bits loses nothing, in the fullness test or in PlayerCount.
   */
  lemma {:induction false} CapacityOverEveryRun(config: Config, keep: bool, actions: seq<Action>)
    ensures var r := RunActions(NewRoom(config, keep), actions);
            config.maxPlayers > 0 ==>
              && |r.players| <= config.maxPlayers
              && Narrow(|r.players|) == |r.players|
              && (Full(r) <==> |r.players| == config.maxPlayers)
  {
    RunKeepsCapacity(NewRoom(config, keep), actions);
  }

  lemma {:induction false} RunKeepsCapacity(r: RoomState, actions: seq<Action>)
    requires WithinCapacity(r)
    ensures WithinCapacity(RunActions(r, actions)) && RunActions(r, actions).config == r.config
    decreases |actions|
  {
    if actions == [] {
    } else {
      ActKeepsCapacity(r, actions[0]);
      RunKeepsCapacity(Act(r, actions[0]), actions[1..]);
    }
  }

  /**
   JoinReplace is all-or-nothing: within capacity the closure either seats the new client in the
   old one's place, or refuses and leaves the whole room as it was. Swapping out a seated client
   is refused only by a closed room, and the becameEmpty branch is never taken.
   */
  lemma ReplaceAllOrNothing(r: RoomState, prev: ClientId, c: ClientId, u: UserId, onLeave: seq<bool>, onJoin: seq<bool>)
    requires WithinCapacity(r)
    ensures var (r', outcome) := ReplaceBody(r, prev, c, u, onLeave, onJoin);
            && (outcome.Seated? ==> r'.players == (r.players - {prev})[c := u] && r.isOpen)
            && (outcome.Refused? ==>
                  && r' == r
                  && !outcome.becameEmpty
                  && outcome.error == (if r.isOpen then RoomFull else RoomClosed))
            && (outcome.Seated? <==> r.isOpen && (prev in r.players || !Full(r)))
  {
    DropFrame(r, prev, onLeave);
    SeatFrame(DropOld(r, prev, onLeave), c, u, onJoin);
  }

  /**
   Grace safety, one actor step: with an EmptyGrace, a step that issues a removal request ends
   with the room empty and not kept, and no step arms a timer in a kept room.
   */
  lemma ActIsGraceSafe(r: RoomState, a: Action)
    ensures r.requests <= Act(r, a).requests
    ensures r.config.grace > 0 && r.requests < Act(r, a).requests ==> IsEmpty(Act(r, a)) && !Act(r, a).keepOnEmpty
    ensures KeptIsDisarmed(r) ==> KeptIsDisarmed(Act(r, a))
  {
    ActFrames(r, a);
  }

  /** Empty, not kept, and nothing of its own is going to remove it. */
  ghost predicate Leaky(r: RoomState) {
    IsEmpty(r) && !r.keepOnEmpty && r.emptyTimer != Armed && r.callbacks == 0 && r.requests == 0
  }

  /** Only a leave can turn a room that is not leaky into one that is. */
  lemma ActLeaksOnlyByLeaving(r: RoomState, a: Action)
    requires WithinCapacity(r) && Leaky(Act(r, a))
    ensures a.DoLeave? || Leaky(r)
    ensures !a.DoSchedule?
    ensures a.DoLeave? && !Leaky(r) ==> a.c in r.players
    ensures OutcomeOf(r, a) != Seated(true)
  {
    match a
    case DoJoin(c, u, onJoin) =>
      SeatFrame(r, c, u, onJoin);
    case DoReplace(prev, c, u, onLeave, onJoin) =>
      ReplaceAllOrNothing(r, prev, c, u, onLeave, onJoin);
      SeatFrame(DropOld(r, prev, onLeave), c, u, onJoin);
    case _ =>
  }

  /** No action seats anyone but the client it is for. */
  lemma ActSeatsOnlyItsClient(r: RoomState, a: Action, c: ClientId)
    requires c in Act(r, a).players
    ensures c in r.players || ((a.DoJoin? || a.DoReplace?) && a.c == c)
  {
    match a
    case DoReplace(prev, d, u, onLeave, onJoin) =>
      DropFrame(r, prev, onLeave);
    case _ =>
  }

  // ---------------------------------------------------------------- removal requests, exactly

  /** Call i switches the keep off where it was on. */
  predicate ReleasedAt(kept: bool, calls: seq<bool>, i: nat) {
    i < |calls| && !calls[i] && if i == 0 then kept else calls[i - 1]
  }

  ghost predicate ReleasesKeep(kept: bool, calls: seq<bool>) {
    exists i: nat :: ReleasedAt(kept, calls, i)
  }

  lemma ReleasesKeepStep(kept: bool, calls: seq<bool>)
    requires calls != []
    ensures ReleasesKeep(kept, calls) <==> (kept && !calls[0]) || ReleasesKeep(calls[0], calls[1..])
  {
    if kept && !calls[0] {
      assert ReleasedAt(kept, calls, 0);
    }
    if ReleasesKeep(calls[0], calls[1..]) {
      var i: nat :| ReleasedAt(calls[0], calls[1..], i);
      assert ReleasedAt(kept, calls, i + 1);
    }
    if ReleasesKeep(kept, calls) {
      var i: nat :| ReleasedAt(kept, calls, i);
      if i > 0 {
        assert ReleasedAt(calls[0], calls[1..], i - 1);
      }
    }
  }

  /** A hook requests a removal exactly of an empty graceless room whose keep it releases; its last call decides. */
  lemma {:induction false} HookExactly(r: RoomState, calls: seq<bool>)
    ensures var h := RunHook(r, calls);
            && (h.requests > r.requests <==> IsEmpty(r) && r.config.grace <= 0 && ReleasesKeep(r.keepOnEmpty, calls))
            && h.keepOnEmpty == (if calls == [] then r.keepOnEmpty else calls[|calls| - 1])
    decreases |calls|
  {
    if calls == [] {
    } else {
      var r1 := SetKeepOnEmpty(r, calls[0]);
      ReleasesKeepStep(r.keepOnEmpty, calls);
      HookExactly(r1, calls[1..]);
      HookFrame(r1, calls[1..]);
    }
  }

  /** Only c sits in the room. */
  predicate Sole(r: RoomState, c: ClientId) {
    r.players.Keys == {c}
  }

  /**
   Closures that, without a grace, request the removal of a room with players in it: a leave's
   second closure in a room somebody has joined meanwhile, and a swap of the only player whose
   OnLeave hook releases the keep.
   */
  ghost predicate AsksOccupied(r: RoomState, a: Action) {
    r.config.grace <= 0 &&
    match a
    case DoSchedule => !IsEmpty(r) && !r.keepOnEmpty
    case DoReplace(prev, _, _, onLeave, _) => r.isOpen && Sole(r, prev) && ReleasesKeep(r.keepOnEmpty, onLeave)
    case _ => false
  }

  /** And of an empty room that is kept again: a last leave whose hook releases the keep and resumes it. */
  ghost predicate AsksKept(r: RoomState, a: Action) {
    r.config.grace <= 0 && a.DoLeave? && Sole(r, a.c)
    && ReleasesKeep(r.keepOnEmpty, a.onLeave) && a.onLeave[|a.onLeave| - 1]
  }

  /** Exactly these closures issue a removal request and leave the room occupied, or empty but kept. */
  lemma PrematureRequestsExactly(r: RoomState, a: Action)
    requires WithinCapacity(r)
    ensures Act(r, a).requests > r.requests && !IsEmpty(Act(r, a)) <==> AsksOccupied(r, a)
    ensures Act(r, a).requests > r.requests && IsEmpty(Act(r, a)) && Act(r, a).keepOnEmpty <==> AsksKept(r, a)
  {
    match a
    case DoJoin(c, u, onJoin) => SeatFrame(r, c, u, onJoin);
    case DoReplace(prev, c, u, onLeave, onJoin) => ReplaceRequestsExactly(r, prev, c, u, onLeave, onJoin);
    case DoLeave(c, onLeave) => DropRequestsExactly(r, c, onLeave);
    case _ =>
  }

  lemma DropRequestsExactly(r: RoomState, c: ClientId, onLeave: seq<bool>)
    ensures var d := DropOld(r, c, onLeave);
            && (d.requests > r.requests <==> Sole(r, c) && r.config.grace <= 0 && ReleasesKeep(r.keepOnEmpty, onLeave))
            && (d.requests > r.requests ==> IsEmpty(d) && onLeave != [] && d.keepOnEmpty == onLeave[|onLeave| - 1])
  {
    if c in r.players {
      var r1 := r.(players := r.players - {c});
      HookExactly(r1, onLeave);
      assert r1.players.Keys == r.players.Keys - {c};
      assert IsEmpty(r1) <==> Sole(r, c) by {
        if IsEmpty(r1) {
          assert r.players.Keys - {c} == {};
        }
        if Sole(r, c) {
          assert r1.players.Keys == {};
        }
      }
    }
  }

  lemma ReplaceRequestsExactly(r: RoomState, prev: ClientId, c: ClientId, u: UserId, onLeave: seq<bool>,
                               onJoin: seq<bool>)
    requires WithinCapacity(r)
    ensures var a := DoReplace(prev, c, u, onLeave, onJoin);
            && (Act(r, a).requests > r.requests <==>
                  r.isOpen && Sole(r, prev) && r.config.grace <= 0 && ReleasesKeep(r.keepOnEmpty, onLeave))
            && (Act(r, a).requests > r.requests ==> c in Act(r, a).players)
  {
    DropRequestsExactly(r, prev, onLeave);
    ReplaceAllOrNothing(r, prev, c, u, onLeave, onJoin);
    SeatFrame(DropOld(r, prev, onLeave), c, u, onJoin);
  }

  function LastKeep(kept: bool, calls: seq<bool>): (keep: bool) {
    if calls == [] then kept else calls[|calls| - 1]
  }

  /** The keep a closure leaves, told from the room before it and the calls of its hooks. */
  function KeepAfter(r: RoomState, a: Action): (keep: bool) {
    match a
    case DoJoin(c, _, onJoin) =>
      if r.isOpen && !Full(r) && c !in r.players then LastKeep(r.keepOnEmpty, onJoin) else r.keepOnEmpty
    case DoReplace(prev, _, _, onLeave, onJoin) =>
      if r.isOpen && prev in r.players then LastKeep(LastKeep(r.keepOnEmpty, onLeave), onJoin)
      else if r.isOpen && !Full(r) then LastKeep(r.keepOnEmpty, onJoin)
      else r.keepOnEmpty
    case DoLeave(c, onLeave) => if c in r.players then LastKeep(r.keepOnEmpty, onLeave) else r.keepOnEmpty
    case DoKeep(keep) => keep
    case _ => r.keepOnEmpty
  }

  lemma DropKeeps(r: RoomState, c: ClientId, onLeave: seq<bool>)
    ensures DropOld(r, c, onLeave).keepOnEmpty
            == if c in r.players then LastKeep(r.keepOnEmpty, onLeave) else r.keepOnEmpty
  {
    HookExactly(r.(players := r.players - {c}), onLeave);
  }

  lemma SeatKeeps(r: RoomState, c: ClientId, u: UserId, onJoin: seq<bool>)
    ensures Seat(r, c, u, onJoin).keepOnEmpty == LastKeep(r.keepOnEmpty, onJoin)
  {
    HookExactly(CancelEmptyRemoval(r.(players := r.players[c := u])), onJoin);
  }

  lemma KeepAfterIsKept(r: RoomState, a: Action)
    requires WithinCapacity(r)
    ensures Act(r, a).keepOnEmpty == KeepAfter(r, a)
  {
    match a
    case DoJoin(c, u, onJoin) => SeatKeeps(r, c, u, onJoin);
    case DoReplace(prev, c, u, onLeave, onJoin) =>
      ReplaceAllOrNothing(r, prev, c, u, onLeave, onJoin);
      DropKeeps(r, prev, onLeave);
      SeatKeeps(DropOld(r, prev, onLeave), c, u, onJoin);
    case DoLeave(c, onLeave) => DropKeeps(r, c, onLeave);
    case _ =>
  }

  /**
   The closures that leave a kept room with a removal request: they set the keep while one is pending,
   or issue one and set the keep again.
   */
  ghost predicate KeepsUnderRequest(r: RoomState, a: Action) {
    KeepAfter(r, a) && (r.requests > 0 || AsksOccupied(r, a) || AsksKept(r, a))
  }

  lemma KeepsUnderRequestExactly(r: RoomState, a: Action)
    requires WithinCapacity(r)
    ensures Act(r, a).keepOnEmpty && Act(r, a).requests > 0 <==> KeepsUnderRequest(r, a)
  {
    KeepAfterIsKept(r, a);
    PrematureRequestsExactly(r, a);
    ActIsGraceSafe(r, a);
  }
}
