/**
 The room protocol over whole runs: the safety theorems, the agreement of the protocol run
 without interleaving with the sequential manager, and runs that show where the guarantees end.
 */
module RoomRuns {
  import opened Base
  import opened RoomModel
  import opened SessionTable
  import opened RoomProtocol
  import opened RoomSafety
  import opened RoomExclusivity
  import opened ManagerModel

  ghost predicate Safe(s: State) {
    WellFormed(s) && RecordsOk(s) && NoLeak(s) && Exclusive(s)
  }

  lemma {:induction false} RunsKeepSafe(s: State, steps: seq<Step>)
    requires Safe(s)
    ensures Safe(Exec(s, steps)) && Exec(s, steps).owner == s.owner
    decreases |steps|
  {
    if steps == [] {
    } else {
      StepKeepsWellFormed(s, steps[0]);
      StepKeepsRecords(s, steps[0]);
      StepKeepsNoLeak(s, steps[0]);
      StepKeepsExclusive(s, steps[0]);
      RunsKeepSafe(Next(s, steps[0]), steps[1..]);
    }
  }

  /**
   Reject exclusivity: in every interleaving, if each room of a type keeps no records or rejects,
   and no seated client of the user was refused a rejoin in that type, the user holds at most one
   settled seat in the rejecting rooms of the type.
   */
  lemma RejectExclusivity(owner: ClientId -> UserId, steps: seq<Step>, u: UserId,
                          rid1: RoomId, c1: ClientId, rid2: RoomId, c2: ClientId)
    requires var s := Exec(Init(owner), steps);
             && Settled(s, rid1, c1, u) && Settled(s, rid2, c2, u)
             && s.actors[rid1].st.config.mode == Reject && s.actors[rid2].st.config.mode == Reject
             && s.actors[rid1].st.config.typ == s.actors[rid2].st.config.typ
             && NoTakeover(s, s.actors[rid1].st.config.typ)
             && (u, s.actors[rid1].st.config.typ) !in s.spoiled
    ensures rid1 == rid2 && c1 == c2
  {
    var s := Exec(Init(owner), steps);
    RunsKeepSafe(Init(owner), steps);
    assert RoomOk(s, rid1) && RoomOk(s, rid2);
    assert ExclusiveAt(s, rid1, c1) && ExclusiveAt(s, rid2, c2);
  }

  /** No dangling record: in every interleaving each record names a registered, enforcing room of its type. */
  lemma NoDanglingRecord(owner: ClientId -> UserId, steps: seq<Step>, u: UserId)
    requires u in Exec(Init(owner), steps).sessions
    ensures var s := Exec(Init(owner), steps);
            && s.sessions[u] != map[]
            && forall t :: t in s.sessions[u] ==>
                 var rid := s.sessions[u][t].room;
                 && rid in s.registered && rid in s.actors && s.actors[rid].status.Live?
                 && s.actors[rid].st.config.typ == t && s.actors[rid].st.config.mode != Allow
  {
    var s := Exec(Init(owner), steps);
    RunsKeepSafe(Init(owner), steps);
    forall t | t in s.sessions[u]
      ensures RecordOk(s, t, s.sessions[u][t].room) && RoomOk(s, s.sessions[u][t].room)
    {
      assert Lookup(s.sessions, u, t).Some?;
    }
  }

  /**
   No emptied room is leaked: in every interleaving, a registered room that was joined, is empty
   and is not kept has a removal on its way: an armed timer, a started callback, an issued
   request, or a leave that has not run its scheduling step yet.
   */
  lemma EmptiedRoomIsNotLeaked(owner: ClientId -> UserId, steps: seq<Step>, rid: RoomId)
    requires var s := Exec(Init(owner), steps);
             rid in s.registered && rid in s.everJoined && rid in s.actors
             && s.actors[rid].st.players == map[] && !s.actors[rid].st.keepOnEmpty
    ensures var s := Exec(Init(owner), steps);
            var r := s.actors[rid].st;
            || r.emptyTimer == Armed
            || r.callbacks > 0
            || r.requests > 0
            || exists c :: c in s.ops && s.ops[c] in {LeaveRan(rid, true, true), ScheduleQueued(rid)}
  {
    var s := Exec(Init(owner), steps);
    RunsKeepSafe(Init(owner), steps);
    if Leaky(s.actors[rid].st) {
      assert Covered(s, rid);
      var c :| Obliged(s, c, rid);
    }
  }

  /**
   Grace safety: in every interleaving, a step that makes a room with an EmptyGrace issue a removal
   request leaves it empty and not kept, and no kept room has an armed timer.
   */
  lemma GraceSafety(owner: ClientId -> UserId, steps: seq<Step>, step: Step, rid: RoomId)
    requires rid in Exec(Init(owner), steps).actors
    ensures var s := Exec(Init(owner), steps);
            var r, r' := s.actors[rid].st, Next(s, step).actors[rid].st;
            && (r.keepOnEmpty ==> r.emptyTimer != Armed)
            && (r.config.grace > 0 && r'.requests > r.requests ==> r'.players == map[] && !r'.keepOnEmpty)
  {
    var s := Exec(Init(owner), steps);
    RunsKeepSafe(Init(owner), steps);
    assert RoomOk(s, rid);
    if s.actors[rid].st.config.grace > 0 {
      StepIsGraceSafe(s, step, rid);
    }
  }

  // ---------------------------------------------------------------- one request at a time

  /** The manager's two maps, as the sequential model sees them. */
  ghost function TableOf(s: State): (t: Table) {
    Table(map rid | rid in s.registered && rid in s.actors :: s.actors[rid].st, s.sessions)
  }

  ghost function ByOne(c: ClientId, moves: seq<Move>): (steps: seq<Step>)
    ensures |steps| == |moves| && forall i :: 0 <= i < |moves| ==> steps[i] == ByClient(c, moves[i])
  {
    seq(|moves|, i requires 0 <= i < |moves| => ByClient(c, moves[i]))
  }

  /** Steps of client c alone lead from s to s'. */
  ghost predicate Solo(s: State, c: ClientId, s': State) {
    exists moves :: Exec(s, ByOne(c, moves)) == s'
  }

  lemma {:induction false} ExecAppend(s: State, first: seq<Step>, second: seq<Step>)
    ensures Exec(s, first + second) == Exec(Exec(s, first), second)
    decreases |first|
  {
    if first == [] {
      assert first + second == second;
    } else {
      assert (first + second)[1..] == first[1..] + second;
      ExecAppend(Next(s, first[0]), first[1..], second);
    }
  }

  lemma SoloStay(s: State, c: ClientId)
    ensures Solo(s, c, s)
  {
    assert Exec(s, ByOne(c, [])) == s;
  }

  lemma SoloMove(s: State, c: ClientId, move: Move)
    ensures Solo(s, c, Next(s, ByClient(c, move)))
  {
    assert ByOne(c, [move])[1..] == [];
    assert Exec(s, ByOne(c, [move])) == Next(s, ByClient(c, move));
  }

  lemma SoloTrans(s: State, c: ClientId, s': State, s'': State)
    requires Solo(s, c, s') && Solo(s', c, s'')
    ensures Solo(s, c, s'')
  {
    var first :| Exec(s, ByOne(c, first)) == s';
    var second :| Exec(s', ByOne(c, second)) == s'';
    ExecAppend(s, ByOne(c, first), ByOne(c, second));
    assert ByOne(c, first + second) == ByOne(c, first) + ByOne(c, second);
  }

  lemma SoloRunLeave(s: State, c: ClientId, rid: RoomId, leaver: ClientId, onLeave: seq<bool>)
    requires rid in s.actors && s.actors[rid].status.Live? && c in s.ops && s.ops[c] == LeaveQueued(rid, leaver)
    ensures Solo(s, c, DoRunLeave(s, c, rid, leaver, onLeave))
  {
    SoloMove(s, c, RunClosure(onLeave, []));
  }

  lemma SoloResume(s: State, c: ClientId)
    requires MoveEnabled(s, c, Resume)
    ensures Solo(s, c, DoResume(s, c))
  {
    SoloMove(s, c, Resume);
  }

  lemma SoloSchedule(s: State, c: ClientId, rid: RoomId)
    requires rid in s.actors && s.actors[rid].status.Live? && c in s.ops && s.ops[c] == ScheduleQueued(rid)
    ensures Solo(s, c, DoRunSchedule(s, c, rid))
  {
    SoloMove(s, c, RunClosure([], []));
  }

  /** Overwriting a room, or ending a request, twice is doing it once. */
  lemma SetTwice(s: State, rid: RoomId, r: RoomState, r': RoomState, c: ClientId, pc: Pc)
    requires rid in s.actors
    ensures SetRoom(SetRoom(s, rid, r), rid, r') == SetRoom(s, rid, r')
    ensures EndOp(SetOp(s, c, pc), c) == EndOp(s, c)
  {}

  lemma ResumeAfterLeave(s: State, c: ClientId, rid: RoomId, existed: bool, empty: bool)
    requires rid in s.actors && c in s.ops && s.ops[c] == LeaveRan(rid, existed, empty)
    ensures MoveEnabled(s, c, Resume)
    ensures DoResume(s, c) == if existed && empty then SetOp(s, c, ScheduleQueued(rid)) else EndOp(s, c)
  {}

  lemma ScheduleThenEnd(s: State, c: ClientId, rid: RoomId)
    requires rid in s.actors
    ensures DoRunSchedule(SetOp(s, c, ScheduleQueued(rid)), c, rid) ==
            EndOp(SetRoom(s, rid, ScheduleEmptyRemoval(s.actors[rid].st)), c)
  {
    var st := s.actors[rid].st;
    SetTwice(SetRoom(s, rid, ScheduleEmptyRemoval(st)), rid, st, st, c, ScheduleQueued(rid));
  }

  /** An idle client's request leaves no trace in the requests once it ended. */
  lemma EndedOps(s: State, s': State, c: ClientId, rid: RoomId, r: RoomState)
    requires c !in s.ops && rid in s'.actors && OnlyOp(s, s', c)
    ensures EndOp(SetRoom(s', rid, r), c).ops == s.ops
  {}

  /** The caller's reaction to a leave closure that ran. */
  lemma SoloAfterLeave(s: State, c: ClientId, rid: RoomId, existed: bool, empty: bool)
    requires rid in s.actors && s.actors[rid].status.Live? && c in s.ops && s.ops[c] == LeaveRan(rid, existed, empty)
    ensures var st := s.actors[rid].st;
            Solo(s, c, EndOp(SetRoom(s, rid, if existed && empty then ScheduleEmptyRemoval(st) else st), c))
  {
    SoloResume(s, c);
    ResumeAfterLeave(s, c, rid, existed, empty);
    if existed && empty {
      var s1 := SetOp(s, c, ScheduleQueued(rid));
      SoloSchedule(s1, c, rid);
      SoloTrans(s, c, s1, DoRunSchedule(s1, c, rid));
      ScheduleThenEnd(s, c, rid);
    } else {
      assert SetRoom(s, rid, s.actors[rid].st) == s;
    }
  }

  /** From a queued leave closure to the end of the request. */
  lemma SoloLeaveTail(s: State, c: ClientId, rid: RoomId, leaver: ClientId, onLeave: seq<bool>)
    requires rid in s.actors && s.actors[rid].status.Live? && c in s.ops && s.ops[c] == LeaveQueued(rid, leaver)
    ensures Solo(s, c, EndOp(SetRoom(s, rid, LeaveInRoom(s.actors[rid].st, leaver, onLeave)), c))
  {
    var r := s.actors[rid].st;
    var r1 := LeaveBody(r, leaver, onLeave);
    var pc := LeaveRan(rid, leaver in r.players, IsEmpty(r1));
    var s1 := SetOp(SetRoom(s, rid, r1), c, pc);
    SoloRunLeave(s, c, rid, leaver, onLeave);
    SoloAfterLeave(s1, c, rid, leaver in r.players, IsEmpty(r1));
    var r2 := LeaveInRoom(r, leaver, onLeave);
    SetTwice(s, rid, r1, r2, c, pc);
    SetTwice(SetRoom(s, rid, r2), rid, r1, r2, c, pc);
    assert EndOp(SetRoom(s1, rid, r2), c) == EndOp(SetRoom(s, rid, r2), c);
    SoloTrans(s, c, s1, EndOp(SetRoom(s, rid, r2), c));
  }

  lemma TableAfterSetRoom(s: State, rid: RoomId, r: RoomState, c: ClientId)
    requires rid in s.actors && rid in s.registered
    ensures TableOf(EndOp(SetRoom(s, rid, r), c)) == Table(TableOf(s).rooms[rid := r], s.sessions)
  {}

  /** A leave that nothing interleaves with is the sequential manager's leave. */
  lemma SoloLeave(s: State, c: ClientId, rid: RoomId, onLeave: seq<bool>) returns (s': State)
    requires WellFormed(s) && c !in s.ops
    ensures Solo(s, c, s') && s'.ops == s.ops
    ensures TableOf(s') == LeaveRoom(TableOf(s), s.owner(c), c, rid, onLeave)
  {
    if rid in s.registered {
      assert RoomOk(s, rid);
      var s1 := DoBeginLeave(s, c, rid);
      var r2 := LeaveInRoom(s.actors[rid].st, c, onLeave);
      SoloMove(s, c, BeginLeave(rid));
      SoloLeaveTail(s1, c, rid, c, onLeave);
      s' := EndOp(SetRoom(s1, rid, r2), c);
      SoloTrans(s, c, s1, s');
      TableAfterSetRoom(s1, rid, r2, c);
      EndedOps(s, s1, c, rid, r2);
    } else {
      SoloStay(s, c);
      s' := s;
    }
  }

  lemma SoloBeginJoin(s: State, c: ClientId, rid: RoomId)
    requires MoveEnabled(s, c, BeginJoin(rid))
    ensures Solo(s, c, DoBeginJoin(s, c, rid))
  {
    SoloMove(s, c, BeginJoin(rid));
  }

  lemma SoloRunJoin(s: State, c: ClientId, rid: RoomId, replaced: Option<Session>, h: Hooks)
    requires rid in s.actors && s.actors[rid].status.Live? && c in s.ops && s.ops[c] == JoinQueued(rid, replaced)
    ensures Solo(s, c, DoRunJoin(s, c, rid, replaced, JoinAction(s, c, rid, replaced, h.onLeave, h.onJoin)))
  {
    SoloMove(s, c, RunClosure(h.onLeave, h.onJoin));
  }

  lemma SoloResumeJoin(s: State, c: ClientId, rid: RoomId, replaced: Option<Session>, outcome: Outcome)
    requires rid in s.actors && c in s.ops && s.ops[c] == JoinRan(rid, replaced, outcome)
    ensures Solo(s, c, DoResumeJoin(s, c, rid, replaced, outcome))
  {
    SoloResume(s, c);
  }

  /** A refused join, to the end of the request. */
  lemma SoloRefused(s: State, c: ClientId, rid: RoomId, replaced: Option<Session>, error: Error)
    requires rid in s.actors && c in s.ops && s.ops[c] == JoinRan(rid, replaced, Refused(error, false))
    ensures var config := s.actors[rid].st.config;
            var sessions :=
              if config.mode != Allow then Rollback(s.sessions, s.owner(c), c, config.typ) else s.sessions;
            Solo(s, c, EndOp(s.(sessions := sessions), c))
  {
    SoloResumeJoin(s, c, rid, replaced, Refused(error, false));
    if s.actors[rid].st.config.mode != Allow {
      var s1 := SetOp(s, c, RollbackDue(rid));
      SoloResume(s1, c);
      EndTwice(s, s1, c, DoResume(s1, c).sessions);
      SoloTrans(s, c, s1, DoResume(s1, c));
    }
  }

  lemma EndTwice(s: State, s1: State, c: ClientId, sessions: Sessions)
    requires c in s1.ops && s1 == SetOp(s, c, s1.ops[c])
    ensures EndOp(s1.(sessions := sessions), c) == EndOp(s.(sessions := sessions), c)
  {}

  /** The kick of a replaced client, to the end of the request. */
  lemma SoloKick(s: State, c: ClientId, rid: RoomId, kicked: ClientId, onKick: seq<bool>)
    requires c in s.ops && s.ops[c] == KickDue(rid, kicked)
    requires rid in s.registered ==> rid in s.actors && s.actors[rid].status.Live?
    ensures rid in s.registered ==> Solo(s, c, EndOp(SetRoom(s, rid, LeaveInRoom(s.actors[rid].st, kicked, onKick)), c))
    ensures rid !in s.registered ==> Solo(s, c, EndOp(s, c))
  {
    SoloResume(s, c);
    if rid in s.registered {
      var s1 := SetOp(s, c, LeaveQueued(rid, kicked));
      SoloLeaveTail(s1, c, rid, kicked, onKick);
      var r := LeaveInRoom(s.actors[rid].st, kicked, onKick);
      SetTwice(SetRoom(s, rid, r), rid, r, r, c, LeaveQueued(rid, kicked));
      assert SetRoom(s1, rid, r) == SetOp(SetRoom(s, rid, r), c, LeaveQueued(rid, kicked));
      SoloTrans(s, c, s1, EndOp(SetRoom(s, rid, r), c));
    }
  }

  /** The end of a request that made its way from s with c's next step noted in s1. */
  lemma EndedTable(s: State, s1: State, c: ClientId, pc: Pc)
    requires s1 == SetOp(s, c, pc)
    ensures EndOp(s1, c).ops == s.ops - {c} && TableOf(EndOp(s1, c)) == TableOf(s) && TableOf(s1) == TableOf(s)
    ensures forall rid, r :: rid in s.actors ==> EndOp(SetRoom(s1, rid, r), c).ops == s.ops - {c}
  {}

  /** The kick of a client whose room is still registered. */
  lemma SoloKickOut(s: State, c: ClientId, rid: RoomId, kicked: ClientId, onKick: seq<bool>) returns (s': State)
    requires WellFormed(s) && c in s.ops && rid in s.registered
    ensures Solo(SetOp(s, c, KickDue(rid, kicked)), c, s') && s'.ops == s.ops - {c}
    ensures TableOf(s') == Table(TableOf(s).rooms[rid := LeaveInRoom(s.actors[rid].st, kicked, onKick)], s.sessions)
  {
    var pc := KickDue(rid, kicked);
    var s1 := SetOp(s, c, pc);
    var r := LeaveInRoom(s.actors[rid].st, kicked, onKick);
    EndedTable(s, s1, c, pc);
    assert RoomOk(s, rid);
    SoloKick(s1, c, rid, kicked, onKick);
    s' := EndOp(SetRoom(s1, rid, r), c);
    TableAfterSetRoom(s1, rid, r, c);
  }

  lemma SoloSeatedKick(s: State, c: ClientId, rid: RoomId, replaced: Option<Session>, isNew: bool, onKick: seq<bool>)
    returns (s': State)
    requires WellFormed(s) && rid in s.actors && c in s.ops && s.ops[c] == JoinRan(rid, replaced, Seated(isNew))
    requires replaced.Some? && replaced.value.room != rid
    ensures Solo(s, c, s') && s'.ops == s.ops - {c}
    ensures TableOf(s') == Kick(TableOf(s), rid, replaced, onKick)
  {
    var x := replaced.value;
    var pc := KickDue(x.room, x.client);
    SoloResumeJoin(s, c, rid, replaced, Seated(isNew));
    var s1 := SetOp(s, c, pc);
    if x.room in s.registered {
      s' := SoloKickOut(s, c, x.room, x.client, onKick);
    } else {
      EndedTable(s, s1, c, pc);
      SoloKick(s1, c, x.room, x.client, onKick);
      s' := EndOp(s1, c);
    }
    SoloTrans(s, c, s1, s');
  }

  /** A join that seated its client, to the end of the request. */
  lemma SoloSeated(s: State, c: ClientId, rid: RoomId, replaced: Option<Session>, isNew: bool, onKick: seq<bool>)
    returns (s': State)
    requires WellFormed(s) && rid in s.actors && c in s.ops && s.ops[c] == JoinRan(rid, replaced, Seated(isNew))
    ensures Solo(s, c, s') && s'.ops == s.ops - {c}
    ensures TableOf(s') == Kick(TableOf(s), rid, replaced, onKick)
  {
    if replaced.Some? && replaced.value.room != rid {
      s' := SoloSeatedKick(s, c, rid, replaced, isNew, onKick);
    } else {
      SoloResumeJoin(s, c, rid, replaced, Seated(isNew));
      s' := EndOp(s, c);
    }
  }

  /** The room and the table once the join closure ran, nothing interleaving. */
  lemma SoloRanJoin(s: State, c: ClientId, rid: RoomId, h: Hooks) returns (s2: State)
    requires WellFormed(s) && c !in s.ops && rid in s.registered
    requires Admit(s.sessions, s.owner(c), c, rid, s.actors[rid].st.config).Admitted?
    ensures var r := s.actors[rid].st;
            var Admitted(sessions, replaced) := Admit(s.sessions, s.owner(c), c, rid, r.config);
            var a := JoinActionFor(rid, replaced, s.owner(c), c, h);
            && Solo(s, c, s2) && WellFormed(s2) && s2.owner == s.owner
            && s2.ops == s.ops[c := JoinRan(rid, replaced, OutcomeOf(r, a))]
            && rid in s2.actors && s2.actors[rid].st.config == r.config
            && TableOf(s2) == Table(TableOf(s).rooms[rid := Act(r, a)], sessions)
  {
    var r := s.actors[rid].st;
    var Admitted(sessions, replaced) := Admit(s.sessions, s.owner(c), c, rid, r.config);
    var a := JoinActionFor(rid, replaced, s.owner(c), c, h);
    assert RoomOk(s, rid);
    var s1 := SetOp(s.(sessions := sessions), c, JoinQueued(rid, replaced));
    SoloBeginJoin(s, c, rid);
    BeginKeepsWellFormed(s, c, rid);
    SoloRunJoin(s1, c, rid, replaced, h);
    s2 := DoRunJoin(s1, c, rid, replaced, a);
    RunJoinKeepsWellFormed(s1, c, rid, replaced, h.onLeave, h.onJoin);
    SoloTrans(s, c, s1, s2);
    RanJoinFacts(s, sessions, c, rid, replaced, a);
  }

  lemma RanJoinFacts(s: State, sessions: Sessions, c: ClientId, rid: RoomId, replaced: Option<Session>, a: Action)
    requires rid in s.actors && rid in s.registered
    ensures var s2 := DoRunJoin(SetOp(s.(sessions := sessions), c, JoinQueued(rid, replaced)), c, rid, replaced, a);
            && s2.ops == s.ops[c := JoinRan(rid, replaced, OutcomeOf(s.actors[rid].st, a))]
            && TableOf(s2) == Table(TableOf(s).rooms[rid := Act(s.actors[rid].st, a)], sessions)
  {}

  lemma PutAndDrop<K, V>(m: map<K, V>, k: K, v: V)
    requires k !in m
    ensures m[k := v] - {k} == m
  {}

  /** The sequential join, once admitted and told the outcome of its closure. */
  lemma AdmittedJoin(t: Table, u: UserId, c: ClientId, rid: RoomId, h: Hooks)
    requires rid in t.rooms && WithinCapacity(t.rooms[rid])
    requires Admit(t.sessions, u, c, rid, t.rooms[rid].config).Admitted?
    ensures var r := t.rooms[rid];
            var Admitted(sessions, replaced) := Admit(t.sessions, u, c, rid, r.config);
            var a := JoinActionFor(rid, replaced, u, c, h);
            var t2 := Table(t.rooms[rid := Act(r, a)], sessions);
            JoinRoom(t, u, c, rid, h).0 ==
            match OutcomeOf(r, a)
            case Refused(error, becameEmpty) =>
              t2.(sessions := if r.config.mode != Allow then Rollback(sessions, u, c, r.config.typ) else sessions)
            case Seated(isNew) => Kick(t2, rid, replaced, h.onKick)
  {
    var replaced := Admit(t.sessions, u, c, rid, t.rooms[rid].config).replaced;
    JoinFrame(t.rooms[rid], rid, replaced, u, c, h);
    if replaced.Some? {
      ReplaceAllOrNothing(t.rooms[rid], replaced.value.client, c, u, h.onLeave, h.onJoin);
    }
  }

  /** An admitted join that nothing interleaves with. */
  lemma SoloAdmitted(s: State, c: ClientId, rid: RoomId, h: Hooks) returns (s': State)
    requires WellFormed(s) && c !in s.ops && rid in s.registered
    requires Admit(s.sessions, s.owner(c), c, rid, s.actors[rid].st.config).Admitted?
    ensures Solo(s, c, s') && s'.ops == s.ops
    ensures TableOf(s') == JoinRoom(TableOf(s), s.owner(c), c, rid, h).0
  {
    var r := s.actors[rid].st;
    var replaced := Admit(s.sessions, s.owner(c), c, rid, r.config).replaced;
    assert RoomOk(s, rid);
    AdmittedJoin(TableOf(s), s.owner(c), c, rid, h);
    var s2 := SoloRanJoin(s, c, rid, h);
    PutAndDrop(s.ops, c, s2.ops[c]);
    s' := SoloFinish(s2, c, rid, replaced, s2.ops[c].outcome, h.onKick);
    SoloTrans(s, c, s2, s');
  }

  /** From the outcome of a join closure to the end of the request. */
  lemma SoloFinish(s: State, c: ClientId, rid: RoomId, replaced: Option<Session>, outcome: Outcome, onKick: seq<bool>)
    returns (s': State)
    requires WellFormed(s) && rid in s.actors && c in s.ops && s.ops[c] == JoinRan(rid, replaced, outcome)
    ensures Solo(s, c, s') && s'.ops == s.ops - {c}
    ensures var config := s.actors[rid].st.config;
            TableOf(s') ==
            match outcome
            case Refused(error, becameEmpty) =>
              TableOf(s).(
                sessions := if config.mode != Allow
                            then Rollback(s.sessions, s.owner(c), c, config.typ) else s.sessions)
            case Seated(isNew) => Kick(TableOf(s), rid, replaced, onKick)
  {
    assert OpOk(s, c);
    match outcome
    case Refused(error, becameEmpty) =>
      SoloRefused(s, c, rid, replaced, error);
      var config := s.actors[rid].st.config;
      var sessions := if config.mode != Allow then Rollback(s.sessions, s.owner(c), c, config.typ) else s.sessions;
      s' := EndOp(s.(sessions := sessions), c);
    case Seated(isNew) =>
      s' := SoloSeated(s, c, rid, replaced, isNew, onKick);
  }

  /** A join that nothing interleaves with is the sequential manager's join. */
  lemma SoloJoin(s: State, c: ClientId, rid: RoomId, h: Hooks) returns (s': State)
    requires WellFormed(s) && c !in s.ops
    ensures Solo(s, c, s') && s'.ops == s.ops
    ensures TableOf(s') == JoinRoom(TableOf(s), s.owner(c), c, rid, h).0
  {
    if rid !in s.registered || Admit(s.sessions, s.owner(c), c, rid, s.actors[rid].st.config).Rejected? {
      SoloStay(s, c);
      s' := s;
    } else {
      s' := SoloAdmitted(s, c, rid, h);
    }
  }
}
