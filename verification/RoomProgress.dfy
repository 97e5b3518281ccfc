/**
 What can always still happen in the room protocol: every request can be brought to its end by its own
 steps, every emptied room can be removed, every unregistered room can stop. And what a removal and a
 shutdown do to the manager's maps, key by key.
 */
module RoomProgress {
  import opened Base
  import opened RoomModel
  import opened SessionTable
  import opened RoomProtocol
  import opened RoomSafety
  import opened RoomLimits
  import RoomRemoval
  import RoomRuns

  // ---------------------------------------------------------------- requests

  /** How many steps a request has left at most. */
  function StepsLeft(pc: Pc): (n: nat) {
    match pc
    case JoinQueued(_, _) => 6
    case JoinRan(_, _, _) => 5
    case KickDue(_, _) => 4
    case LeaveQueued(_, _) => 3
    case LeaveRan(_, _, _) => 2
    case ScheduleQueued(_) => 1
    case RollbackDue(_) => 1
  }

  /** The caller's next step: its closure if the loop can still run it, its reaction, or giving up. */
  ghost function OwnMove(s: State, c: ClientId): (move: Move)
    requires c in s.ops
  {
    var pc := s.ops[c];
    if !(pc.JoinQueued? || pc.LeaveQueued? || pc.ScheduleQueued?) then Resume
    else if pc.rid in s.actors && !s.actors[pc.rid].status.Stopped? then RunClosure([], [])
    else GiveUp
  }

  ghost predicate Nearer(s: State, s': State, c: ClientId)
    requires c in s.ops
  {
    c in s'.ops ==> StepsLeft(s'.ops[c]) < StepsLeft(s.ops[c])
  }

  lemma ClosureAdvances(s: State, c: ClientId)
    requires MoveEnabled(s, c, RunClosure([], []))
    ensures Nearer(s, DoRunClosure(s, c, [], []), c)
  {
    match s.ops[c]
    case JoinQueued(_, _) =>
    case LeaveQueued(_, _) =>
    case ScheduleQueued(_) =>
  }

  lemma ResumeAdvances(s: State, c: ClientId)
    requires MoveEnabled(s, c, Resume)
    ensures Nearer(s, DoResume(s, c), c)
  {
    match s.ops[c]
    case JoinRan(_, _, _) =>
    case RollbackDue(_) =>
    case KickDue(_, _) =>
    case LeaveRan(_, _, _) =>
  }

  lemma GiveUpAdvances(s: State, c: ClientId)
    requires MoveEnabled(s, c, GiveUp)
    ensures Nearer(s, DoGiveUp(s, c), c)
  {}

  lemma OwnMoveIsPossible(s: State, c: ClientId)
    requires WellFormed(s) && c in s.ops
    ensures MoveEnabled(s, c, OwnMove(s, c))
  {
    assert OpOk(s, c);
  }

  /** It is possible, and brings the request nearer to its end. */
  lemma OwnMoveAdvances(s: State, c: ClientId)
    requires WellFormed(s) && c in s.ops
    ensures MoveEnabled(s, c, OwnMove(s, c))
    ensures Nearer(s, ApplyMove(s, c, OwnMove(s, c)), c)
  {
    OwnMoveIsPossible(s, c);
    match OwnMove(s, c)
    case RunClosure(_, _) => ClosureAdvances(s, c);
    case Resume => ResumeAdvances(s, c);
    case GiveUp => GiveUpAdvances(s, c);
  }

  lemma {:induction false} RequestEnds(s: State, c: ClientId) returns (s': State)
    requires WellFormed(s)
    ensures Leads(s, s') && c !in s'.ops
    decreases if c in s.ops then StepsLeft(s.ops[c]) else 0
  {
    if c !in s.ops {
      assert Exec(s, []) == s;
      s' := s;
    } else {
      var move := OwnMove(s, c);
      OwnMoveAdvances(s, c);
      var s1 := ApplyMove(s, c, move);
      LeadsByStep(s, ByClient(c, move));
      LeadsKeepsWellFormed(s, s1);
      s' := RequestEnds(s1, c);
      LeadsTrans(s, s1, s');
    }
  }

  /** No request hangs: from every reachable state, each request in flight can end by its own steps. */
  lemma EveryRequestEnds(owner: ClientId -> UserId, steps: seq<Step>, c: ClientId) returns (s': State)
    ensures Leads(Exec(Init(owner), steps), s') && c !in s'.ops
  {
    RoomRuns.RunsKeepSafe(Init(owner), steps);
    s' := RequestEnds(Exec(Init(owner), steps), c);
  }

  /**
   What `do` can still do for a request, in every interleaving: its closure runs unless the loop has
   stopped, and its caller may give up once the room is shut down, even if the closure has just run.
   */
  lemma ClosureOrGiveUp(owner: ClientId -> UserId, steps: seq<Step>, c: ClientId, onLeave: seq<bool>, onJoin: seq<bool>)
    requires c in Exec(Init(owner), steps).ops
    ensures var s := Exec(Init(owner), steps);
            var pc := s.ops[c];
            && (pc.JoinQueued? || pc.LeaveQueued? || pc.ScheduleQueued? ==>
                  && pc.rid in s.actors && !MoveEnabled(s, c, Resume)
                  && (MoveEnabled(s, c, RunClosure(onLeave, onJoin)) <==> !s.actors[pc.rid].status.Stopped?)
                  && (MoveEnabled(s, c, GiveUp) <==> !s.actors[pc.rid].status.Live?))
            && (pc.JoinRan? || pc.LeaveRan? ==>
                  && pc.rid in s.actors
                  && MoveEnabled(s, c, Resume) && !MoveEnabled(s, c, RunClosure(onLeave, onJoin))
                  && (MoveEnabled(s, c, GiveUp) <==> !s.actors[pc.rid].status.Live?))
            && (pc.RollbackDue? || pc.KickDue? ==> MoveEnabled(s, c, Resume) && !MoveEnabled(s, c, GiveUp))
  {
    RoomRuns.RunsKeepSafe(Init(owner), steps);
    assert OpOk(Exec(Init(owner), steps), c);
  }

  /**
   A join whose caller gives up leaves no record behind: in a room that keeps records, its rollback
   is due and drops the one record that names its client, and no other.
   */
  lemma GivenUpJoinRollsBack(s: State, c: ClientId)
    requires MoveEnabled(s, c, GiveUp) && (s.ops[c].JoinQueued? || s.ops[c].JoinRan?)
    ensures var config := s.actors[s.ops[c].rid].st.config;
            var s1 := Next(s, ByClient(c, GiveUp));
            && s1.actors == s.actors && s1.sessions == s.sessions
            && (config.mode == Allow ==> c !in s1.ops)
            && (config.mode != Allow ==>
                  && MoveEnabled(s1, c, Resume)
                  && var s2 := Next(s1, ByClient(c, Resume));
                     && c !in s2.ops && s2.actors == s.actors
                     && (forall u, t :: Lookup(s2.sessions, u, t) ==
                                        if u == s.owner(c) && t == config.typ && Lookup(s.sessions, u, t).Some?
                                           && Lookup(s.sessions, u, t).value.client == c
                                        then None else Lookup(s.sessions, u, t)))
  {}

  /**
   A join that was given up can still seat its client, while the loop of the shut-down room has not stopped:
   its closure stays queued, and runs as if the caller were there.
   */
  lemma GivenUpJoinStillRuns(s: State, c: ClientId, onLeave: seq<bool>, onJoin: seq<bool>)
    requires MoveEnabled(s, c, GiveUp) && s.ops[c].JoinQueued? && s.actors[s.ops[c].rid].status.Cancelled?
    ensures var rid := s.ops[c].rid;
            var a := JoinAction(s, c, rid, s.ops[c].replaced, onLeave, onJoin);
            var s1 := Next(s, ByClient(c, GiveUp));
            && EventEnabled(s1, rid, RunAction(a))
            && Next(s1, OnRoom(rid, RunAction(a))).actors[rid].st == Act(s.actors[rid].st, a)
  {}

  /** Any other request that gives up just ends. */
  lemma GivenUpLeaveEnds(s: State, c: ClientId)
    requires MoveEnabled(s, c, GiveUp) && !s.ops[c].JoinQueued? && !s.ops[c].JoinRan?
    ensures Next(s, ByClient(c, GiveUp)) == s.(ops := s.ops - {c})
  {}

  // ---------------------------------------------------------------- removals

  /** From a leave that has still to schedule the removal, to the removal. */
  lemma ObligedSchedules(s: State, c: ClientId, rid: RoomId) returns (s': State)
    requires rid in s.actors && s.actors[rid].status.Live? && Obliged(s, c, rid)
    ensures Leads(s, s') && s'.registered == s.registered && rid in s'.actors && s'.actors[rid].status.Live?
    ensures s'.actors[rid].st == ScheduleEmptyRemoval(s.actors[rid].st)
  {
    if s.ops[c].LeaveRan? {
      LastLeaveResumes(s, c, rid);
      var s1 := SetOp(s, c, ScheduleQueued(rid));
      s' := ScheduleRuns(s1, c, rid);
      LeadsTrans(s, s1, s');
    } else {
      s' := ScheduleRuns(s, c, rid);
    }
  }

  lemma ObligedRemoves(s: State, c: ClientId, rid: RoomId) returns (s': State)
    requires WellFormed(s) && rid in s.registered && Obliged(s, c, rid)
    requires IsEmpty(s.actors[rid].st) && !s.actors[rid].st.keepOnEmpty
    ensures Leads(s, s') && rid !in s'.registered
  {
    assert RoomOk(s, rid);
    var s1 := ObligedSchedules(s, c, rid);
    s' := PendingRemoves(s1, rid);
    LeadsTrans(s, s1, s');
  }

  /** From a timer, a callback or a request of an empty room that is not kept, to its removal. */
  lemma PendingRemoves(s: State, rid: RoomId) returns (s': State)
    requires rid in s.registered && rid in s.actors && s.actors[rid].status.Live?
    requires var r := s.actors[rid].st;
             IsEmpty(r) && !r.keepOnEmpty && (r.emptyTimer == Armed || r.callbacks > 0 || r.requests > 0)
    ensures Leads(s, s') && rid !in s'.registered
  {
    var r := s.actors[rid].st;
    if r.requests > 0 {
      s' := RequestServed(s, rid);
    } else {
      var s1;
      if r.callbacks > 0 {
        s1 := CallbackAsks(s, rid);
      } else {
        s1 := GraceRunsOut(s, rid);
      }
      s' := RequestServed(s1, rid);
      LeadsTrans(s, s1, s');
    }
  }

  /**
   Every emptied room goes: from every reachable state, a registered room that was joined, is empty
   and is not kept can come to be unregistered by what is already on its way.
   */
  lemma EmptiedRoomGoes(owner: ClientId -> UserId, steps: seq<Step>, rid: RoomId) returns (s': State)
    requires var s := Exec(Init(owner), steps);
             rid in s.registered && rid in s.everJoined && rid in s.actors
             && IsEmpty(s.actors[rid].st) && !s.actors[rid].st.keepOnEmpty
    ensures Leads(Exec(Init(owner), steps), s') && rid !in s'.registered
  {
    var s := Exec(Init(owner), steps);
    RoomRuns.EmptiedRoomIsNotLeaked(owner, steps, rid);
    RoomRuns.RunsKeepSafe(Init(owner), steps);
    assert RoomOk(s, rid);
    var r := s.actors[rid].st;
    if r.emptyTimer == Armed || r.callbacks > 0 || r.requests > 0 {
      s' := PendingRemoves(s, rid);
    } else {
      var c :| Obliged(s, c, rid);
      s' := ObligedRemoves(s, c, rid);
    }
  }

  /** A running room with a player in it is one that was joined. */
  ghost predicate OccupiedWereJoined(s: State) {
    forall rid :: rid in s.actors && s.actors[rid].status.Live? && !IsEmpty(s.actors[rid].st) ==> rid in s.everJoined
  }

  lemma ActSeatsFirst(r: RoomState, a: Action)
    requires !IsEmpty(Act(r, a)) && IsEmpty(r)
    ensures OutcomeOf(r, a) == Seated(true)
  {
    match a
    case DoReplace(prev, _, _, onLeave, _) => DropFrame(r, prev, onLeave);
    case DoLeave(c, onLeave) => DropFrame(r, c, onLeave);
    case _ =>
  }

  /** Room rid is as empty as it was, or noted as joined; no note is taken back. */
  ghost predicate JoinsNoted(s: State, s': State) {
    && s.everJoined <= s'.everJoined
    && (forall rid :: rid in s'.actors && s'.actors[rid].status.Live? && !IsEmpty(s'.actors[rid].st) ==>
                        || (rid in s.actors && s.actors[rid].status.Live? && !IsEmpty(s.actors[rid].st))
                        || rid in s'.everJoined)
  }

  lemma RunJoinNotes(s: State, c: ClientId, rid: RoomId, replaced: Option<Session>, a: Action)
    requires rid in s.actors
    ensures JoinsNoted(s, DoRunJoin(s, c, rid, replaced, a))
  {
    if !IsEmpty(Act(s.actors[rid].st, a)) && IsEmpty(s.actors[rid].st) {
      ActSeatsFirst(s.actors[rid].st, a);
    }
  }

  lemma RunLeaveNotes(s: State, c: ClientId, rid: RoomId, leaver: ClientId, onLeave: seq<bool>)
    requires rid in s.actors
    ensures JoinsNoted(s, DoRunLeave(s, c, rid, leaver, onLeave))
  {
    DropFrame(s.actors[rid].st, leaver, onLeave);
  }

  lemma ClosureNotes(s: State, c: ClientId, onLeave: seq<bool>, onJoin: seq<bool>)
    requires MoveEnabled(s, c, RunClosure(onLeave, onJoin))
    ensures JoinsNoted(s, DoRunClosure(s, c, onLeave, onJoin))
  {
    match s.ops[c]
    case JoinQueued(rid, replaced) =>
      RunJoinNotes(s, c, rid, replaced, JoinAction(s, c, rid, replaced, onLeave, onJoin));
    case LeaveQueued(rid, leaver) => RunLeaveNotes(s, c, rid, leaver, onLeave);
    case ScheduleQueued(rid) =>
  }

  lemma MoveNotes(s: State, c: ClientId, move: Move)
    requires MoveEnabled(s, c, move)
    ensures JoinsNoted(s, ApplyMove(s, c, move))
  {
    match move
    case RunClosure(onLeave, onJoin) => ClosureNotes(s, c, onLeave, onJoin);
    case _ =>
  }

  lemma EventNotes(s: State, rid: RoomId, event: Event)
    requires EventEnabled(s, rid, event)
    ensures JoinsNoted(s, ApplyEvent(s, rid, event))
  {}

  lemma StepNotes(s: State, step: Step)
    ensures JoinsNoted(s, Next(s, step))
  {
    match step
    case ByClient(c, move) =>
      if MoveEnabled(s, c, move) {
        MoveNotes(s, c, move);
      }
    case OnRoom(rid, event) =>
      if EventEnabled(s, rid, event) {
        EventNotes(s, rid, event);
      }
    case ShutdownAll =>
  }

  lemma {:induction false} RunNotes(s: State, steps: seq<Step>)
    requires OccupiedWereJoined(s)
    ensures OccupiedWereJoined(Exec(s, steps)) && s.everJoined <= Exec(s, steps).everJoined
    decreases |steps|
  {
    if steps == [] {
    } else {
      StepNotes(s, steps[0]);
      RunNotes(Next(s, steps[0]), steps[1..]);
    }
  }

  /** So a registered room that ever had a player, and is now empty and not kept, can come to be unregistered. */
  lemma OnceOccupiedRoomGoes(owner: ClientId -> UserId, before: seq<Step>, after: seq<Step>, rid: RoomId)
    returns (s': State)
    requires var s0 := Exec(Init(owner), before);
             rid in s0.registered && rid in s0.actors && !IsEmpty(s0.actors[rid].st)
    requires var s := Exec(Init(owner), before + after);
             rid in s.registered && rid in s.actors && IsEmpty(s.actors[rid].st) && !s.actors[rid].st.keepOnEmpty
    ensures Leads(Exec(Init(owner), before + after), s') && rid !in s'.registered
  {
    var s0 := Exec(Init(owner), before);
    RoomRuns.RunsKeepSafe(Init(owner), before);
    assert RoomOk(s0, rid);
    RunNotes(Init(owner), before);
    RunNotes(s0, after);
    RoomRuns.ExecAppend(Init(owner), before, after);
    s' := EmptiedRoomGoes(owner, before + after, rid);
  }

  lemma RemoveDropsRecords(s: State, rid: RoomId, requested: bool)
    requires RecordsOk(s) && rid in s.registered && EventEnabled(s, rid, Remove(requested))
    ensures var s' := DoRemove(s, rid, requested);
            forall u, t :: Lookup(s'.sessions, u, t) ==
                           if Lookup(s.sessions, u, t).Some? && Lookup(s.sessions, u, t).value.room == rid
                           then None else Lookup(s.sessions, u, t)
  {
    forall u, t | Lookup(s.sessions, u, t).Some? ensures RecordOk(s, t, Lookup(s.sessions, u, t).value.room) {}
  }

  lemma RemoveKeepsOthers(s: State, rid: RoomId, requested: bool)
    requires EventEnabled(s, rid, Remove(requested)) && rid in s.registered
    ensures var s' := DoRemove(s, rid, requested);
            && s'.registered == s.registered - {rid} && s'.ops == s.ops
            && s'.actors.Keys == s.actors.Keys
            && (forall x :: x in s.actors && (x != rid || !requested) ==> s'.actors[x] == s.actors[x])
            && (requested ==> s'.actors[rid] == OneRequestLess(s.actors[rid]))
  {}

  function OneRequestLess(a: Actor): (after: Actor)
    requires a.st.requests > 0
  {
    Actor(a.st.(requests := a.st.requests - 1), a.status)
  }

  /** A removal, asked for by the room or not: it unregisters the room and drops the records that name it. */
  lemma RemoveExactly(owner: ClientId -> UserId, steps: seq<Step>, rid: RoomId, requested: bool)
    requires var s := Exec(Init(owner), steps); rid in s.registered && EventEnabled(s, rid, Remove(requested))
    ensures var s := Exec(Init(owner), steps);
            var s' := Next(s, OnRoom(rid, Remove(requested)));
            && s'.registered == s.registered - {rid} && s'.ops == s.ops && s'.actors.Keys == s.actors.Keys
            && (forall u, t :: Lookup(s'.sessions, u, t) ==
                               if Lookup(s.sessions, u, t).Some? && Lookup(s.sessions, u, t).value.room == rid
                               then None else Lookup(s.sessions, u, t))
            && (forall x :: x in s.actors && (x != rid || !requested) ==> s'.actors[x] == s.actors[x])
            && (requested ==> s'.actors[rid] == OneRequestLess(s.actors[rid]))
  {
    var s := Exec(Init(owner), steps);
    RoomRuns.RunsKeepSafe(Init(owner), steps);
    RemoveDropsRecords(s, rid, requested);
    RemoveKeepsOthers(s, rid, requested);
  }

  /** Any registered room can be removed at any time. */
  lemma RemovalIsPossible(s: State, rid: RoomId)
    requires rid in s.registered && rid in s.actors
    ensures EventEnabled(s, rid, Remove(false))
    ensures s.actors[rid].st.requests > 0 ==> EventEnabled(s, rid, Remove(true))
  {}

  /** A shutdown of the manager leaves no room registered and no record. */
  lemma ShutdownEmptiesMaps(s: State)
    ensures var s' := Next(s, ShutdownAll);
            s'.registered == {} && s'.actors == s.actors && forall u, t :: Lookup(s'.sessions, u, t) == None
  {}

  /** An unregistered room can stop, and then holds no timer. */
  lemma UnregisteredRoomStops(owner: ClientId -> UserId, steps: seq<Step>, rid: RoomId) returns (s': State)
    requires var s := Exec(Init(owner), steps); rid in s.actors && rid !in s.registered
    ensures Leads(Exec(Init(owner), steps), s') && rid in s'.actors && s'.actors[rid].status.Stopped?
    ensures !Exec(Init(owner), steps).actors[rid].status.Stopped? ==> s'.actors[rid].st.emptyTimer == NoTimer
    ensures s'.actors[rid].st.players == Exec(Init(owner), steps).actors[rid].st.players
  {
    var s := Exec(Init(owner), steps);
    assert Exec(s, []) == s;
    s' := s;
    if s'.actors[rid].status.Live? {
      LeadsByEvent(s', rid, Cancel);
      s' := ApplyEvent(s', rid, Cancel);
    }
    if s'.actors[rid].status.Cancelled? {
      LeadsByEvent(s', rid, Stop);
      LeadsTrans(s, s', ApplyEvent(s', rid, Stop));
      s' := ApplyEvent(s', rid, Stop);
    }
  }

  // ---------------------------------------------------------------- scheduling

  ghost predicate Schedules(s: State, c: ClientId, rid: RoomId) {
    c in s.ops && s.ops[c] == ScheduleQueued(rid)
  }

  ghost predicate LeftEmpty(s: State, c: ClientId, rid: RoomId) {
    c in s.ops && s.ops[c] == LeaveRan(rid, true, true)
  }

  /** A request comes to schedule a removal only from a leave that saw its room empty. */
  lemma ScheduleStep(s: State, step: Step, c: ClientId, rid: RoomId)
    ensures Schedules(Next(s, step), c, rid) ==> Schedules(s, c, rid) || LeftEmpty(s, c, rid)
  {
    match step
    case ByClient(d, move) =>
      if MoveEnabled(s, d, move) {
        ScheduleMove(s, d, move, c, rid);
      }
    case OnRoom(x, event) =>
      if EventEnabled(s, x, event) {
        EventKeepsOps(s, x, event);
      }
    case ShutdownAll =>
  }

  lemma ScheduleMove(s: State, d: ClientId, move: Move, c: ClientId, rid: RoomId)
    requires MoveEnabled(s, d, move)
    ensures Schedules(ApplyMove(s, d, move), c, rid) ==> Schedules(s, c, rid) || LeftEmpty(s, c, rid)
  {}

  /** And it saw it empty because it was: nobody sat in the room when the leave's closure had run. */
  lemma LeftEmptyStep(s: State, step: Step, c: ClientId, rid: RoomId)
    ensures var s' := Next(s, step);
            LeftEmpty(s', c, rid) ==> LeftEmpty(s, c, rid) || (rid in s'.actors && IsEmpty(s'.actors[rid].st))
  {
    match step
    case ByClient(d, move) =>
      if MoveEnabled(s, d, move) {
        LeftEmptyMove(s, d, move, c, rid);
      }
    case OnRoom(x, event) =>
      if EventEnabled(s, x, event) {
        EventKeepsOps(s, x, event);
      }
    case ShutdownAll =>
  }

  lemma LeftEmptyMove(s: State, d: ClientId, move: Move, c: ClientId, rid: RoomId)
    requires MoveEnabled(s, d, move)
    ensures var s' := ApplyMove(s, d, move);
            LeftEmpty(s', c, rid) ==> LeftEmpty(s, c, rid) || (rid in s'.actors && IsEmpty(s'.actors[rid].st))
  {}

  /** A leave under way that found its room empty. */
  ghost predicate Empties(s: State, c: ClientId, rid: RoomId) {
    Schedules(s, c, rid) || LeftEmpty(s, c, rid)
  }

  /** Its closure has just run, and the room is empty. */
  ghost predicate Emptied(s: State, c: ClientId, rid: RoomId) {
    LeftEmpty(s, c, rid) && rid in s.actors && IsEmpty(s.actors[rid].st)
  }

  lemma EmptiesStep(s: State, step: Step, c: ClientId, rid: RoomId)
    requires Empties(Next(s, step), c, rid)
    ensures Empties(s, c, rid) || Emptied(Next(s, step), c, rid)
  {
    ScheduleStep(s, step, c, rid);
    LeftEmptyStep(s, step, c, rid);
  }

  lemma EmptiesBefore(owner: ClientId -> UserId, steps: seq<Step>, n: nat, c: ClientId, rid: RoomId)
    requires n < |steps| && Empties(RoomRemoval.At(owner, steps, n + 1), c, rid)
    ensures Empties(RoomRemoval.At(owner, steps, n), c, rid) || Emptied(RoomRemoval.At(owner, steps, n + 1), c, rid)
  {
    RoomRemoval.AtNext(owner, steps, n);
    EmptiesStep(RoomRemoval.At(owner, steps, n), steps[n], c, rid);
  }

  lemma NothingAtFirst(owner: ClientId -> UserId, steps: seq<Step>, c: ClientId, rid: RoomId)
    ensures !Empties(RoomRemoval.At(owner, steps, 0), c, rid)
  {
    assert steps[..0] == [];
  }

  lemma {:induction false} ScheduledFrom(owner: ClientId -> UserId, steps: seq<Step>, n: nat, c: ClientId, rid: RoomId)
    returns (i: nat)
    requires n <= |steps| && Empties(RoomRemoval.At(owner, steps, n), c, rid)
    ensures i <= n && Emptied(RoomRemoval.At(owner, steps, i), c, rid)
    decreases n
  {
    NothingAtFirst(owner, steps, c, rid);
    EmptiesBefore(owner, steps, n - 1, c, rid);
    if Empties(RoomRemoval.At(owner, steps, n - 1), c, rid) {
      i := ScheduledFrom(owner, steps, n - 1, c, rid);
    } else {
      i := n;
    }
  }

  /**
   In every interleaving, a leave schedules the removal of its room only if nobody was left in it: some
   earlier state of the run has the room empty and the leave's closure just run.
   */
  lemma ScheduleFollowsEmptyRoom(owner: ClientId -> UserId, steps: seq<Step>, c: ClientId, rid: RoomId)
    requires Schedules(Exec(Init(owner), steps), c, rid)
    ensures exists i: nat :: i <= |steps| && Emptied(RoomRemoval.At(owner, steps, i), c, rid)
  {
    assert steps[..|steps|] == steps;
    var i := ScheduledFrom(owner, steps, |steps|, c, rid);
  }
}
