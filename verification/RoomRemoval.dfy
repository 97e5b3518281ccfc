/**
 When a room asks for its own removal although somebody sits in it: the exact steps that bring
 this about, and over whole runs the rooms it can happen to.
 */
module RoomRemoval {
  import opened Base
  import opened RoomModel
  import opened SessionTable
  import opened RoomProtocol
  import RoomRuns

  /** The actor closure of room rid that this step runs, if it runs one. */
  ghost function ClosureOf(s: State, step: Step, rid: RoomId): (a: Option<Action>)
    ensures a.Some? ==> rid in s.actors
  {
    match step
    case ByClient(c, RunClosure(onLeave, onJoin)) =>
      if !MoveEnabled(s, c, RunClosure(onLeave, onJoin)) || s.ops[c].rid != rid then None
      else
        (match s.ops[c]
         case JoinQueued(_, replaced) => Some(JoinAction(s, c, rid, replaced, onLeave, onJoin))
         case LeaveQueued(_, leaver) => Some(DoLeave(leaver, onLeave))
         case ScheduleQueued(_) => Some(DoSchedule))
    case OnRoom(x, RunAction(a)) => if x == rid && EventEnabled(s, rid, RunAction(a)) then Some(a) else None
    case _ => None
  }

  /** A room changes by its closures; all else leaves players and keep alone and issues no request. */
  ghost predicate RoomStep(r: RoomState, r': RoomState, a: Option<Action>) {
    match a
    case Some(action) => r' == Act(r, action)
    case None => r'.players == r.players && r'.keepOnEmpty == r.keepOnEmpty && r'.requests <= r.requests
  }

  lemma MoveIsTheChange(s: State, c: ClientId, onLeave: seq<bool>, onJoin: seq<bool>, rid: RoomId)
    requires rid in s.actors && MoveEnabled(s, c, RunClosure(onLeave, onJoin))
    ensures var step := ByClient(c, RunClosure(onLeave, onJoin));
            RoomStep(s.actors[rid].st, Next(s, step).actors[rid].st, ClosureOf(s, step, rid))
  {
    var s' := DoRunClosure(s, c, onLeave, onJoin);
    assert Next(s, ByClient(c, RunClosure(onLeave, onJoin))) == s';
    if s.ops[c].rid != rid {
      assert s'.actors[rid] == s.actors[rid];
    }
  }

  lemma EventIsTheChange(s: State, x: RoomId, event: Event, rid: RoomId)
    requires rid in s.actors && EventEnabled(s, x, event)
    ensures RoomStep(s.actors[rid].st, ApplyEvent(s, x, event).actors[rid].st, ClosureOf(s, OnRoom(x, event), rid))
  {
    if x != rid {
      assert ApplyEvent(s, x, event).actors[rid] == s.actors[rid];
    }
  }

  lemma ClosureIsTheChange(s: State, step: Step, rid: RoomId)
    requires WellFormed(s) && rid in s.actors
    ensures RoomStep(s.actors[rid].st, Next(s, step).actors[rid].st, ClosureOf(s, step, rid))
  {
    match step
    case ByClient(c, RunClosure(onLeave, onJoin)) =>
      if MoveEnabled(s, c, RunClosure(onLeave, onJoin)) {
        MoveIsTheChange(s, c, onLeave, onJoin, rid);
      }
    case ByClient(c, Resume) =>
      if MoveEnabled(s, c, Resume) {
        ResumeKeepsWellFormed(s, c);
      }
    case OnRoom(x, event) =>
      if EventEnabled(s, x, event) {
        EventIsTheChange(s, x, event, rid);
      }
    case _ =>
  }

  /**
   In every reachable state, a step issues a removal request of a room it leaves occupied or kept
   exactly when it runs one of the closures above in that room.
   */
  lemma PrematureStepsExactly(owner: ClientId -> UserId, steps: seq<Step>, step: Step, rid: RoomId)
    requires rid in Exec(Init(owner), steps).actors
    ensures var s := Exec(Init(owner), steps);
            var r, r', a := s.actors[rid].st, Next(s, step).actors[rid].st, ClosureOf(s, step, rid);
            r'.requests > r.requests && (!IsEmpty(r') || r'.keepOnEmpty) <==>
            a.Some? && (AsksOccupied(r, a.value) || AsksKept(r, a.value))
  {
    var s := Exec(Init(owner), steps);
    RoomRuns.RunsKeepSafe(Init(owner), steps);
    ClosureIsTheChange(s, step, rid);
    assert RoomOk(s, rid);
    var a := ClosureOf(s, step, rid);
    if a.Some? {
      PrematureRequestsExactly(s.actors[rid].st, a.value);
    }
  }

  /**
   The closures that leave an occupied room with a removal request where there was no such room:
   they issue it, or they seat a client, with or without a grace, in an open empty room whose
   request has not been served yet.
   */
  ghost predicate SeatsUnderRequest(r: RoomState, a: Action) {
    AsksOccupied(r, a) || ((a.DoJoin? || a.DoReplace?) && r.isOpen && IsEmpty(r) && r.requests > 0)
  }

  lemma ActSeatsUnderRequest(r: RoomState, a: Action)
    requires WithinCapacity(r) && (IsEmpty(r) || r.requests == 0)
    ensures !IsEmpty(Act(r, a)) && Act(r, a).requests > 0 <==> SeatsUnderRequest(r, a)
  {
    PrematureRequestsExactly(r, a);
    ActFrames(r, a);
    ActIsGraceSafe(r, a);
    if a.DoReplace? {
      ReplaceAllOrNothing(r, a.prev, a.c, a.u, a.onLeave, a.onJoin);
    }
  }

  /** Somebody sits in the room, and it has asked to be removed. */
  ghost predicate AtRisk(s: State, rid: RoomId) {
    rid in s.actors && !IsEmpty(s.actors[rid].st) && s.actors[rid].st.requests > 0
  }

  ghost predicate PutsAtRisk(s: State, step: Step, rid: RoomId) {
    var a := ClosureOf(s, step, rid);
    a.Some? && SeatsUnderRequest(s.actors[rid].st, a.value)
  }

  /** A room that is not at risk becomes so exactly by running one of those closures. */
  lemma RiskExactly(s: State, step: Step, rid: RoomId)
    requires WellFormed(s) && !AtRisk(s, rid)
    ensures AtRisk(Next(s, step), rid) <==> PutsAtRisk(s, step, rid)
  {
    if rid in s.actors {
      ClosureIsTheChange(s, step, rid);
      assert RoomOk(s, rid);
      var a := ClosureOf(s, step, rid);
      if a.Some? {
        ActSeatsUnderRequest(s.actors[rid].st, a.value);
      }
    } else {
      NewRoomIsEmpty(s, step, rid);
    }
  }

  lemma NewRoomIsEmpty(s: State, step: Step, rid: RoomId)
    requires rid !in s.actors
    ensures !AtRisk(Next(s, step), rid)
  {
    match step
    case ByClient(c, move) =>
    case OnRoom(x, event) =>
    case ShutdownAll =>
  }

  // ---------------------------------------------------------------- over whole runs

  /** The state after the first i steps of a run. */
  ghost function At(owner: ClientId -> UserId, steps: seq<Step>, i: nat): (s: State)
    requires i <= |steps|
  {
    Exec(Init(owner), steps[..i])
  }

  lemma AtNext(owner: ClientId -> UserId, steps: seq<Step>, i: nat)
    requires i < |steps|
    ensures At(owner, steps, i + 1) == Next(At(owner, steps, i), steps[i])
    ensures WellFormed(At(owner, steps, i))
  {
    assert steps[..i + 1] == steps[..i] + [steps[i]];
    RoomRuns.ExecAppend(Init(owner), steps[..i], [steps[i]]);
    assert [steps[i]][1..] == [];
    RoomRuns.RunsKeepSafe(Init(owner), steps[..i]);
  }

  lemma {:induction false} RiskHasACause(owner: ClientId -> UserId, steps: seq<Step>, n: nat, rid: RoomId)
    returns (i: nat)
    requires n <= |steps| && AtRisk(At(owner, steps, n), rid)
    ensures i < n && PutsAtRisk(At(owner, steps, i), steps[i], rid)
    decreases n
  {
    assert n > 0;
    AtNext(owner, steps, n - 1);
    if AtRisk(At(owner, steps, n - 1), rid) {
      i := RiskHasACause(owner, steps, n - 1, rid);
    } else {
      RiskExactly(At(owner, steps, n - 1), steps[n - 1], rid);
      i := n - 1;
    }
  }

  /**
   Over every run: a room is at some time occupied with its own removal requested if and only if
   at some step one of the closures above ran in it.
   */
  lemma OccupiedRoomsAtRisk(owner: ClientId -> UserId, steps: seq<Step>, rid: RoomId)
    ensures (exists n: nat :: n <= |steps| && AtRisk(At(owner, steps, n), rid)) <==>
            (exists i: nat :: i < |steps| && PutsAtRisk(At(owner, steps, i), steps[i], rid))
  {
    if n: nat :| n <= |steps| && AtRisk(At(owner, steps, n), rid) {
      var i := RiskHasACause(owner, steps, n, rid);
    }
    if i: nat :| i < |steps| && PutsAtRisk(At(owner, steps, i), steps[i], rid) {
      AtNext(owner, steps, i);
      if !AtRisk(At(owner, steps, i), rid) {
        RiskExactly(At(owner, steps, i), steps[i], rid);
        assert AtRisk(At(owner, steps, i + 1), rid);
      }
    }
  }

  /** The removal a room asked for unregisters it from under a player exactly when it is at risk. */
  lemma OwnRemovalExactly(s: State, rid: RoomId)
    requires rid in s.registered && rid in s.actors
    ensures var s' := Next(s, OnRoom(rid, Remove(true)));
            rid !in s'.registered && !IsEmpty(s'.actors[rid].st) <==> AtRisk(s, rid)
  {}

  lemma OccupiedRemovalIsARisk(s: State, rid: RoomId)
    requires rid in s.registered && rid in s.actors && !IsEmpty(s.actors[rid].st)
    requires rid !in Next(s, OnRoom(rid, Remove(true))).registered
    ensures AtRisk(s, rid)
  {
    OwnRemovalExactly(s, rid);
  }

  /** So in every run such a removal has its cause in an earlier step. */
  lemma OwnRemovalOfOccupiedRoom(owner: ClientId -> UserId, steps: seq<Step>, rid: RoomId)
    requires var s := Exec(Init(owner), steps);
             && rid in s.registered && rid in s.actors && !IsEmpty(s.actors[rid].st)
             && rid !in Next(s, OnRoom(rid, Remove(true))).registered
    ensures exists i: nat :: i < |steps| && PutsAtRisk(At(owner, steps, i), steps[i], rid)
  {
    OccupiedRemovalIsARisk(Exec(Init(owner), steps), rid);
    assert steps[..|steps|] == steps;
    var i := RiskHasACause(owner, steps, |steps|, rid);
  }

  // ---------------------------------------------------------------- kept rooms

  /** The room is kept, and its removal has been asked for. */
  ghost predicate KeptAtRisk(s: State, rid: RoomId) {
    rid in s.actors && s.actors[rid].st.keepOnEmpty && s.actors[rid].st.requests > 0
  }

  ghost predicate PutsKeptAtRisk(s: State, step: Step, rid: RoomId) {
    var a := ClosureOf(s, step, rid);
    a.Some? && KeepsUnderRequest(s.actors[rid].st, a.value)
  }

  lemma NewRoomHasNoRequest(s: State, step: Step, rid: RoomId)
    requires rid !in s.actors
    ensures !KeptAtRisk(Next(s, step), rid)
  {
    match step
    case ByClient(c, move) =>
    case OnRoom(x, event) =>
    case ShutdownAll =>
  }

  /** A closure puts a kept room at risk exactly as told before it; nothing else does. */
  lemma KeptRiskExactly(s: State, step: Step, rid: RoomId)
    requires WellFormed(s)
    ensures PutsKeptAtRisk(s, step, rid) ==> KeptAtRisk(Next(s, step), rid)
    ensures KeptAtRisk(Next(s, step), rid) ==> PutsKeptAtRisk(s, step, rid) || KeptAtRisk(s, rid)
  {
    if rid in s.actors {
      ClosureIsTheChange(s, step, rid);
      assert RoomOk(s, rid);
      var a := ClosureOf(s, step, rid);
      if a.Some? {
        KeepsUnderRequestExactly(s.actors[rid].st, a.value);
      }
    } else {
      NewRoomHasNoRequest(s, step, rid);
    }
  }

  lemma {:induction false} KeptRiskHasACause(owner: ClientId -> UserId, steps: seq<Step>, n: nat, rid: RoomId)
    returns (i: nat)
    requires n <= |steps| && KeptAtRisk(At(owner, steps, n), rid)
    ensures i < n && PutsKeptAtRisk(At(owner, steps, i), steps[i], rid)
    decreases n
  {
    assert n > 0;
    AtNext(owner, steps, n - 1);
    KeptRiskExactly(At(owner, steps, n - 1), steps[n - 1], rid);
    if PutsKeptAtRisk(At(owner, steps, n - 1), steps[n - 1], rid) {
      i := n - 1;
    } else {
      i := KeptRiskHasACause(owner, steps, n - 1, rid);
    }
  }

  /**
   Over every run: a room is at some time kept with its own removal requested if and only if at some
   step a closure set the keep while a request was pending, or issued one and set the keep again.
   */
  lemma KeptRoomsAtRisk(owner: ClientId -> UserId, steps: seq<Step>, rid: RoomId)
    ensures (exists n: nat :: n <= |steps| && KeptAtRisk(At(owner, steps, n), rid)) <==>
            (exists i: nat :: i < |steps| && PutsKeptAtRisk(At(owner, steps, i), steps[i], rid))
  {
    if n: nat :| n <= |steps| && KeptAtRisk(At(owner, steps, n), rid) {
      var i := KeptRiskHasACause(owner, steps, n, rid);
    }
    if i: nat :| i < |steps| && PutsKeptAtRisk(At(owner, steps, i), steps[i], rid) {
      AtNext(owner, steps, i);
      KeptRiskExactly(At(owner, steps, i), steps[i], rid);
      assert KeptAtRisk(At(owner, steps, i + 1), rid);
    }
  }

  /** The removal a room asked for unregisters it although it is kept exactly when it is at that risk. */
  lemma KeptRemovalExactly(s: State, rid: RoomId)
    requires rid in s.registered && rid in s.actors
    ensures var s' := Next(s, OnRoom(rid, Remove(true)));
            rid !in s'.registered && s'.actors[rid].st.keepOnEmpty <==> KeptAtRisk(s, rid)
  {}
}
