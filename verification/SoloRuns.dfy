/**
 Every way a request can run when nothing interleaves with it: whatever hooks its closures happen to
 run, a join or leave that ends has done what the sequential manager does with those hooks, and the
 caller gets the same error. RoomRuns shows that there is such a run.
 */
module SoloRuns {
  import opened Base
  import opened RoomModel
  import opened SessionTable
  import opened RoomProtocol
  import opened ManagerModel
  import opened RoomRuns

  /** A move of a request that has begun; one that is not enabled is skipped. */
  predicate Continues(move: Move) {
    !move.BeginJoin? && !move.BeginLeave?
  }

  ghost function AfterMove(s: State, c: ClientId, move: Move): (s': State) {
    Next(s, ByClient(c, move))
  }

  ghost function AfterMoves(s: State, c: ClientId, moves: seq<Move>): (s': State) {
    Exec(s, ByOne(c, moves))
  }

  lemma AfterFirst(s: State, c: ClientId, moves: seq<Move>)
    requires moves != []
    ensures AfterMoves(s, c, moves) == AfterMoves(AfterMove(s, c, moves[0]), c, moves[1..])
  {
    assert ByOne(c, moves)[1..] == ByOne(c, moves[1..]);
  }

  /** What the caller of a join has been told so far: the error of its closure, once that ran. */
  ghost function Told(s: State, c: ClientId, err: Option<Error>): (told: Option<Error>) {
    if c in s.ops && s.ops[c].JoinRan? then ErrorOf(s.ops[c].outcome) else err
  }

  ghost function ToldBy(s: State, c: ClientId, moves: seq<Move>, err: Option<Error>): (told: Option<Error>)
    decreases |moves|
  {
    if moves == [] then err
    else
      var s' := AfterMove(s, c, moves[0]);
      ToldBy(s', c, moves[1..], Told(s', c, err))
  }

  // ---------------------------------------------------------------- a leave

  /** The table once the leave closure of client k ran in room x of table t. */
  function Left(t: Table, x: RoomId, k: ClientId, onLeave: seq<bool>): (after: Table)
    requires x in t.rooms
  {
    t.(rooms := t.rooms[x := LeaveBody(t.rooms[x], k, onLeave)])
  }

  /** Client c's leave, or kick of another, has got from table t to state s, with these hook calls. */
  ghost predicate LeaveReached(t: Table, s: State, c: ClientId, x: RoomId, k: ClientId, onLeave: seq<bool>) {
    x in t.rooms &&
    var existed, empty := k in t.rooms[x].players, IsEmpty(LeaveBody(t.rooms[x], k, onLeave));
    if c !in s.ops then TableOf(s) == t.(rooms := t.rooms[x := LeaveInRoom(t.rooms[x], k, onLeave)])
    else
      match s.ops[c]
      case LeaveQueued(y, leaver) => y == x && leaver == k && TableOf(s) == t
      case LeaveRan(y, e, m) => y == x && e == existed && m == empty && TableOf(s) == Left(t, x, k, onLeave)
      case ScheduleQueued(y) => y == x && existed && empty && TableOf(s) == Left(t, x, k, onLeave)
      case _ => false
  }

  /** A registered room of a well-formed state is running, so nobody gives up on it. */
  lemma RegisteredRuns(s: State, rid: RoomId)
    requires WellFormed(s) && rid in TableOf(s).rooms
    ensures rid in s.registered && rid in s.actors && s.actors[rid].status.Live?
    ensures TableOf(s).rooms[rid] == s.actors[rid].st
  {
    assert RoomOk(s, rid);
  }

  lemma TableOfOp(s: State, c: ClientId, pc: Pc)
    ensures TableOf(SetOp(s, c, pc)) == TableOf(s) && TableOf(EndOp(s, c)) == TableOf(s)
  {}

  lemma TableOfRoom(s: State, rid: RoomId, r: RoomState)
    requires rid in s.actors && rid in s.registered
    ensures TableOf(SetRoom(s, rid, r)) == TableOf(s).(rooms := TableOf(s).rooms[rid := r])
  {}

  /** The closure runs with the hook calls it happens to make. */
  lemma LeaveRuns(t: Table, s: State, c: ClientId, x: RoomId, k: ClientId, onLeave: seq<bool>)
    requires WellFormed(s) && c in s.ops && s.ops[c] == LeaveQueued(x, k) && x in t.rooms && TableOf(s) == t
    ensures x in s.actors && LeaveReached(t, DoRunLeave(s, c, x, k, onLeave), c, x, k, onLeave)
  {
    RegisteredRuns(s, x);
    var r := LeaveBody(s.actors[x].st, k, onLeave);
    TableOfRoom(s, x, r);
    TableOfOp(SetRoom(s, x, r), c, LeaveRan(x, k in s.actors[x].st.players, IsEmpty(r)));
  }

  lemma LeaveResumes(t: Table, s: State, c: ClientId, x: RoomId, k: ClientId, onLeave: seq<bool>)
    requires c in s.ops && s.ops[c].LeaveRan? && LeaveReached(t, s, c, x, k, onLeave) && MoveEnabled(s, c, Resume)
    ensures LeaveReached(t, DoResume(s, c), c, x, k, onLeave)
  {
    TableOfOp(s, c, ScheduleQueued(x));
  }

  lemma LeftThenScheduled(t: Table, x: RoomId, k: ClientId, onLeave: seq<bool>)
    requires x in t.rooms && k in t.rooms[x].players && IsEmpty(LeaveBody(t.rooms[x], k, onLeave))
    ensures var left := Left(t, x, k, onLeave);
            left.(rooms := left.rooms[x := ScheduleEmptyRemoval(left.rooms[x])])
            == t.(rooms := t.rooms[x := LeaveInRoom(t.rooms[x], k, onLeave)])
  {}

  lemma ScheduledTable(s: State, c: ClientId, x: RoomId)
    requires x in s.actors && x in s.registered
    ensures var t := TableOf(s);
            TableOf(DoRunSchedule(s, c, x)) == t.(rooms := t.rooms[x := ScheduleEmptyRemoval(t.rooms[x])])
  {
    var r := ScheduleEmptyRemoval(s.actors[x].st);
    TableOfRoom(s, x, r);
    TableOfOp(SetRoom(s, x, r), c, ScheduleQueued(x));
  }

  lemma LeaveSchedules(t: Table, s: State, c: ClientId, x: RoomId, k: ClientId, onLeave: seq<bool>)
    requires WellFormed(s) && c in s.ops && s.ops[c] == ScheduleQueued(x) && LeaveReached(t, s, c, x, k, onLeave)
    ensures x in s.actors && LeaveReached(t, DoRunSchedule(s, c, x), c, x, k, onLeave)
  {
    RegisteredRuns(s, x);
    ScheduledTable(s, c, x);
    LeftThenScheduled(t, x, k, onLeave);
  }

  lemma LeaveAdvances(t: Table, s: State, c: ClientId, x: RoomId, k: ClientId, onLeave: seq<bool>, move: Move)
    returns (h: seq<bool>)
    requires WellFormed(s) && c in s.ops && LeaveReached(t, s, c, x, k, onLeave) && Continues(move)
    ensures LeaveReached(t, AfterMove(s, c, move), c, x, k, h)
  {
    h := onLeave;
    RegisteredRuns(s, x);
    if MoveEnabled(s, c, move) {
      match s.ops[c]
      case LeaveQueued(_, _) =>
        h := move.onLeave;
        LeaveRuns(t, s, c, x, k, h);
      case LeaveRan(_, _, _) => LeaveResumes(t, s, c, x, k, h);
      case ScheduleQueued(_) => LeaveSchedules(t, s, c, x, k, h);
    }
  }

  /** No request but c's moves. */
  lemma OnlyOwnOp(s: State, c: ClientId, move: Move)
    ensures AfterMove(s, c, move).ops - {c} == s.ops - {c} && AfterMove(s, c, move).owner == s.owner
  {
    if MoveEnabled(s, c, move) && move.RunClosure? && s.ops[c].JoinQueued? {
      assert AfterMove(s, c, move).ops == s.ops[c := AfterMove(s, c, move).ops[c]];
    }
  }

  lemma SameWithout<K, V>(m: map<K, V>, m': map<K, V>, k: K)
    requires m - {k} == m' - {k} && k !in m && k !in m'
    ensures m == m'
  {
    assert m - {k} == m && m' - {k} == m';
  }

  lemma IdleStays(s: State, c: ClientId, move: Move)
    requires c !in s.ops && Continues(move)
    ensures AfterMove(s, c, move) == s
  {}

  lemma {:induction false} StaysIdle(s: State, c: ClientId, moves: seq<Move>, err: Option<Error>)
    requires c !in s.ops && forall i :: 0 <= i < |moves| ==> Continues(moves[i])
    ensures AfterMoves(s, c, moves) == s && ToldBy(s, c, moves, err) == err
    decreases |moves|
  {
    if moves == [] {
    } else {
      AfterFirst(s, c, moves);
      IdleStays(s, c, moves[0]);
      StaysIdle(s, c, moves[1..], err);
    }
  }

  lemma {:induction false} LeaveRunsOn(
      t: Table, s: State, c: ClientId, x: RoomId, k: ClientId, onLeave: seq<bool>, moves: seq<Move>)
    returns (h: seq<bool>)
    requires WellFormed(s) && LeaveReached(t, s, c, x, k, onLeave)
    requires forall i :: 0 <= i < |moves| ==> Continues(moves[i])
    ensures LeaveReached(t, AfterMoves(s, c, moves), c, x, k, h)
    ensures AfterMoves(s, c, moves).ops - {c} == s.ops - {c}
    decreases |moves|
  {
    if moves == [] {
      h := onLeave;
    } else {
      AfterFirst(s, c, moves);
      OnlyOwnOp(s, c, moves[0]);
      StepKeepsWellFormed(s, ByClient(c, moves[0]));
      h := onLeave;
      if c in s.ops {
        h := LeaveAdvances(t, s, c, x, k, onLeave, moves[0]);
      } else {
        IdleStays(s, c, moves[0]);
      }
      h := LeaveRunsOn(t, AfterMove(s, c, moves[0]), c, x, k, h, moves[1..]);
    }
  }

  /** Every leave that nothing interleaves with and that ends is the sequential manager's leave. */
  lemma EverySoloLeave(s: State, c: ClientId, rid: RoomId, moves: seq<Move>) returns (onLeave: seq<bool>)
    requires WellFormed(s) && c !in s.ops && forall i :: 0 <= i < |moves| ==> Continues(moves[i])
    ensures var s' := AfterMoves(AfterMove(s, c, BeginLeave(rid)), c, moves);
            c !in s'.ops ==>
              s'.ops == s.ops && TableOf(s') == LeaveRoom(TableOf(s), s.owner(c), c, rid, onLeave)
  {
    var s1 := AfterMove(s, c, BeginLeave(rid));
    StepKeepsWellFormed(s, ByClient(c, BeginLeave(rid)));
    OnlyOwnOp(s, c, BeginLeave(rid));
    if rid in TableOf(s).rooms {
      RegisteredRuns(s, rid);
      onLeave := LeaveRunsOn(TableOf(s1), s1, c, rid, c, [], moves);
      if c !in AfterMoves(s1, c, moves).ops {
        SameWithout(s.ops, AfterMoves(s1, c, moves).ops, c);
      }
    } else {
      onLeave := [];
      StaysIdle(s, c, moves, None);
    }
  }

  // ---------------------------------------------------------------- a join

  ghost predicate Admits(t: Table, u: UserId, c: ClientId, rid: RoomId) {
    rid in t.rooms && WithinCapacity(t.rooms[rid]) && Admit(t.sessions, u, c, rid, t.rooms[rid].config).Admitted?
  }

  ghost function Taken(t: Table, u: UserId, c: ClientId, rid: RoomId): (replaced: Option<Session>)
    requires Admits(t, u, c, rid)
  {
    Admit(t.sessions, u, c, rid, t.rooms[rid].config).replaced
  }

  ghost function Verdict(t: Table, u: UserId, c: ClientId, rid: RoomId, h: Hooks): (outcome: Outcome)
    requires Admits(t, u, c, rid)
  {
    OutcomeOf(t.rooms[rid], JoinActionFor(rid, Taken(t, u, c, rid), u, c, h))
  }

  /** The table once the record is written. */
  ghost function Recorded(t: Table, u: UserId, c: ClientId, rid: RoomId): (after: Table)
    requires Admits(t, u, c, rid)
  {
    t.(sessions := Admit(t.sessions, u, c, rid, t.rooms[rid].config).sessions)
  }

  /** The table once the join closure ran. */
  ghost function Ran(t: Table, u: UserId, c: ClientId, rid: RoomId, h: Hooks): (after: Table)
    requires Admits(t, u, c, rid)
  {
    var r := t.rooms[rid];
    Recorded(t, u, c, rid).(rooms := t.rooms[rid := Act(r, JoinActionFor(rid, Taken(t, u, c, rid), u, c, h))])
  }

  /** Client c's join has got from table t to state s, with these hook calls, and reported this error. */
  ghost predicate JoinReached(t: Table, s: State, c: ClientId, rid: RoomId, h: Hooks, err: Option<Error>) {
    var u := s.owner(c);
    Admits(t, u, c, rid) &&
    var replaced, outcome := Taken(t, u, c, rid), Verdict(t, u, c, rid, h);
    if c !in s.ops then TableOf(s) == JoinRoom(t, u, c, rid, h).0 && err == JoinRoom(t, u, c, rid, h).1
    else
      match s.ops[c]
      case JoinQueued(x, y) => x == rid && y == replaced && TableOf(s) == Recorded(t, u, c, rid) && err == None
      case JoinRan(x, y, o) =>
        && x == rid && y == replaced && o == outcome
        && TableOf(s) == Ran(t, u, c, rid, h) && err == ErrorOf(outcome)
      case RollbackDue(x) =>
        && x == rid && outcome.Refused? && t.rooms[rid].config.mode != Allow
        && TableOf(s) == Ran(t, u, c, rid, h) && err == ErrorOf(outcome)
      case KickDue(x, k) =>
        && outcome.Seated? && replaced == Some(Session(x, k)) && x != rid
        && TableOf(s) == Ran(t, u, c, rid, h) && err == None
      case _ =>
        && outcome.Seated? && replaced.Some? && replaced.value.room != rid && err == None
        && LeaveReached(Ran(t, u, c, rid, h), s, c, replaced.value.room, replaced.value.client, h.onKick)
  }

  /** How the sequential join ends, told from its phases. */
  lemma JoinEnds(t: Table, u: UserId, c: ClientId, rid: RoomId, h: Hooks)
    requires Admits(t, u, c, rid)
    ensures JoinRoom(t, u, c, rid, h).1 == ErrorOf(Verdict(t, u, c, rid, h))
    ensures var outcome, ran := Verdict(t, u, c, rid, h), Ran(t, u, c, rid, h);
            var config := t.rooms[rid].config;
            && (outcome.Refused? ==> !outcome.becameEmpty)
            && JoinRoom(t, u, c, rid, h).0 ==
               if outcome.Seated? then Kick(ran, rid, Taken(t, u, c, rid), h.onKick)
               else if config.mode != Allow then ran.(sessions := Rollback(ran.sessions, u, c, config.typ))
               else ran
  {
    AdmittedJoin(t, u, c, rid, h);
    var replaced := Taken(t, u, c, rid);
    if replaced.Some? {
      ReplaceAllOrNothing(t.rooms[rid], replaced.value.client, c, u, h.onLeave, h.onJoin);
    }
  }

  lemma JoinRuns(t: Table, s: State, c: ClientId, rid: RoomId, h: Hooks)
    requires WellFormed(s) && c in s.ops && s.ops[c].JoinQueued? && JoinReached(t, s, c, rid, h, None)
    ensures rid in s.actors
    ensures var replaced := s.ops[c].replaced;
            var s' := DoRunJoin(s, c, rid, replaced, JoinAction(s, c, rid, replaced, h.onLeave, h.onJoin));
            JoinReached(t, s', c, rid, h, Told(s', c, None))
  {
    var u, replaced := s.owner(c), s.ops[c].replaced;
    RegisteredRuns(s, rid);
    var a := JoinActionFor(rid, replaced, u, c, h);
    TableOfRoom(s, rid, Act(s.actors[rid].st, a));
    var s' := DoRunJoin(s, c, rid, replaced, a);
    assert TableOf(s') == TableOf(SetRoom(s, rid, Act(s.actors[rid].st, a)));
  }

  lemma JoinResumes(t: Table, s: State, c: ClientId, rid: RoomId, h: Hooks, err: Option<Error>)
    requires WellFormed(s) && c in s.ops && s.ops[c].JoinRan? && JoinReached(t, s, c, rid, h, err)
    requires MoveEnabled(s, c, Resume)
    ensures JoinReached(t, DoResume(s, c), c, rid, h, err)
  {
    var u := s.owner(c);
    JoinEnds(t, u, c, rid, h);
    RegisteredRuns(s, rid);
    TableOfOp(s, c, RollbackDue(rid));
    if s.ops[c].replaced.Some? {
      TableOfOp(s, c, KickDue(s.ops[c].replaced.value.room, s.ops[c].replaced.value.client));
    }
  }

  lemma RollbackResumes(t: Table, s: State, c: ClientId, rid: RoomId, h: Hooks, err: Option<Error>)
    requires WellFormed(s) && c in s.ops && s.ops[c].RollbackDue? && JoinReached(t, s, c, rid, h, err)
    requires MoveEnabled(s, c, Resume)
    ensures JoinReached(t, DoResume(s, c), c, rid, h, err)
  {
    JoinEnds(t, s.owner(c), c, rid, h);
    RegisteredRuns(s, rid);
    var sessions := Rollback(s.sessions, s.owner(c), c, s.actors[rid].st.config.typ);
    assert TableOf(s.(sessions := sessions)) == TableOf(s).(sessions := sessions);
    TableOfOp(s.(sessions := sessions), c, RollbackDue(rid));
  }

  lemma KickResumes(t: Table, s: State, c: ClientId, rid: RoomId, h: Hooks, err: Option<Error>)
    requires WellFormed(s) && c in s.ops && s.ops[c].KickDue? && JoinReached(t, s, c, rid, h, err)
    ensures JoinReached(t, DoResume(s, c), c, rid, h, err)
  {
    var u := s.owner(c);
    JoinEnds(t, u, c, rid, h);
    var KickDue(x, k) := s.ops[c];
    TableOfOp(s, c, LeaveQueued(x, k));
    if x in s.registered {
      assert RoomOk(s, x);
      assert x in TableOf(s).rooms;
    } else {
      assert x !in TableOf(s).rooms;
    }
  }

  /** A kick on its way is a leave on its way, and ends the join with itself. */
  lemma KickReached(t: Table, s: State, c: ClientId, rid: RoomId, h: Hooks)
    requires Admits(t, s.owner(c), c, rid) && Verdict(t, s.owner(c), c, rid, h).Seated?
    requires var replaced := Taken(t, s.owner(c), c, rid);
             && replaced.Some? && replaced.value.room != rid
             && LeaveReached(Ran(t, s.owner(c), c, rid, h), s, c, replaced.value.room, replaced.value.client, h.onKick)
    ensures JoinReached(t, s, c, rid, h, None)
  {
    JoinEnds(t, s.owner(c), c, rid, h);
  }

  lemma KickAdvances(t: Table, s: State, c: ClientId, rid: RoomId, h: Hooks, move: Move) returns (h': Hooks)
    requires WellFormed(s) && c in s.ops && JoinReached(t, s, c, rid, h, None) && Continues(move)
    requires s.ops[c].LeaveQueued? || s.ops[c].LeaveRan? || s.ops[c].ScheduleQueued?
    ensures var s' := AfterMove(s, c, move);
            JoinReached(t, s', c, rid, h', None) && Told(s', c, None) == None
  {
    var x := Taken(t, s.owner(c), c, rid).value;
    var onKick := LeaveAdvances(Ran(t, s.owner(c), c, rid, h), s, c, x.room, x.client, h.onKick, move);
    h' := h.(onKick := onKick);
    OnlyOwnOp(s, c, move);
    KickReached(t, AfterMove(s, c, move), c, rid, h');
  }

  lemma JoinAdvances(t: Table, s: State, c: ClientId, rid: RoomId, h: Hooks, err: Option<Error>, move: Move)
    returns (h': Hooks)
    requires WellFormed(s) && c in s.ops && JoinReached(t, s, c, rid, h, err) && Continues(move)
    ensures var s' := AfterMove(s, c, move);
            JoinReached(t, s', c, rid, h', Told(s', c, err))
  {
    h' := h;
    if s.ops[c].LeaveQueued? || s.ops[c].LeaveRan? || s.ops[c].ScheduleQueued? {
      h' := KickAdvances(t, s, c, rid, h, move);
    } else if MoveEnabled(s, c, move) {
      if !s.ops[c].KickDue? {
        RegisteredRuns(s, rid);
      }
      match s.ops[c]
      case JoinQueued(_, _) =>
        h' := h.(onLeave := move.onLeave, onJoin := move.onJoin);
        JoinRuns(t, s, c, rid, h');
      case JoinRan(_, _, _) => JoinResumes(t, s, c, rid, h, err);
      case RollbackDue(_) => RollbackResumes(t, s, c, rid, h, err);
      case KickDue(_, _) => KickResumes(t, s, c, rid, h, err);
    }
  }

  lemma {:induction false} JoinRunsOn(
      t: Table, s: State, c: ClientId, rid: RoomId, h: Hooks, err: Option<Error>, moves: seq<Move>)
    returns (h': Hooks)
    requires WellFormed(s) && JoinReached(t, s, c, rid, h, err)
    requires forall i :: 0 <= i < |moves| ==> Continues(moves[i])
    ensures JoinReached(t, AfterMoves(s, c, moves), c, rid, h', ToldBy(s, c, moves, err))
    ensures AfterMoves(s, c, moves).ops - {c} == s.ops - {c} && AfterMoves(s, c, moves).owner == s.owner
    decreases |moves|
  {
    h' := h;
    if moves == [] {
    } else if c !in s.ops {
      StaysIdle(s, c, moves, err);
    } else {
      AfterFirst(s, c, moves);
      OnlyOwnOp(s, c, moves[0]);
      StepKeepsWellFormed(s, ByClient(c, moves[0]));
      var s' := AfterMove(s, c, moves[0]);
      h' := JoinAdvances(t, s, c, rid, h, err, moves[0]);
      h' := JoinRunsOn(t, s', c, rid, h', Told(s', c, err), moves[1..]);
    }
  }

  /** The error of the locked phase. */
  ghost function TurnedDown(t: Table, u: UserId, c: ClientId, rid: RoomId): (err: Option<Error>) {
    if rid !in t.rooms then Some(RoomNotFound)
    else if Admit(t.sessions, u, c, rid, t.rooms[rid].config).Rejected? then Some(AlreadyInRoomOfType)
    else None
  }

  lemma JoinBegins(s: State, c: ClientId, rid: RoomId)
    requires WellFormed(s) && c !in s.ops && Admits(TableOf(s), s.owner(c), c, rid)
    ensures JoinReached(TableOf(s), AfterMove(s, c, BeginJoin(rid)), c, rid, NO_HOOKS, None)
  {
    RegisteredRuns(s, rid);
    var Admitted(sessions, replaced) := Admit(s.sessions, s.owner(c), c, rid, s.actors[rid].st.config);
    assert TableOf(s.(sessions := sessions)) == TableOf(s).(sessions := sessions);
    TableOfOp(s.(sessions := sessions), c, JoinQueued(rid, replaced));
  }

  lemma TurnedDownJoin(s: State, c: ClientId, rid: RoomId, moves: seq<Move>)
    requires WellFormed(s) && c !in s.ops && forall i :: 0 <= i < |moves| ==> Continues(moves[i])
    requires TurnedDown(TableOf(s), s.owner(c), c, rid).Some?
    ensures var err := TurnedDown(TableOf(s), s.owner(c), c, rid);
            && AfterMove(s, c, BeginJoin(rid)) == s
            && AfterMoves(s, c, moves) == s && ToldBy(s, c, moves, err) == err
            && JoinRoom(TableOf(s), s.owner(c), c, rid, NO_HOOKS) == (TableOf(s), err)
  {
    StaysIdle(s, c, moves, TurnedDown(TableOf(s), s.owner(c), c, rid));
    if rid in TableOf(s).rooms {
      RegisteredRuns(s, rid);
    }
  }

  /**
   Every join that nothing interleaves with and that ends is the sequential manager's join, with the
   hook calls its closures made and with the same error.
   */
  lemma EverySoloJoin(s: State, c: ClientId, rid: RoomId, moves: seq<Move>) returns (h: Hooks)
    requires WellFormed(s) && c !in s.ops && forall i :: 0 <= i < |moves| ==> Continues(moves[i])
    ensures var t, u := TableOf(s), s.owner(c);
            var s1 := AfterMove(s, c, BeginJoin(rid));
            var s' := AfterMoves(s1, c, moves);
            c !in s'.ops ==>
              && s'.ops == s.ops
              && (TableOf(s'), ToldBy(s1, c, moves, TurnedDown(t, u, c, rid))) == JoinRoom(t, u, c, rid, h)
  {
    var s1 := AfterMove(s, c, BeginJoin(rid));
    if TurnedDown(TableOf(s), s.owner(c), c, rid).Some? {
      h := NO_HOOKS;
      TurnedDownJoin(s, c, rid, moves);
    } else {
      RegisteredRuns(s, rid);
      assert RoomOk(s, rid);
      JoinBegins(s, c, rid);
      OnlyOwnOp(s, c, BeginJoin(rid));
      StepKeepsWellFormed(s, ByClient(c, BeginJoin(rid)));
      h := JoinRunsOn(TableOf(s), s1, c, rid, NO_HOOKS, None, moves);
      var s' := AfterMoves(s1, c, moves);
      if c !in s'.ops {
        SameWithout(s.ops, s'.ops, c);
      }
    }
  }
}
