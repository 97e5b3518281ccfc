/**
 The empty timer of a room over whole runs: what is started is accounted for, and a room with a grace
 asks for its own removal only after its timer ran out.
 */
module RoomTimers {
  import opened Base
  import opened RoomModel
  import opened SessionTable
  import opened RoomProtocol
  import RoomRuns

  /** How often the timer was armed and ran out, its callback ran or was dropped, and a removal was requested. */
  datatype Tally = Tally(armed: nat, fired: nat, ran: nat, dropped: nat, issued: nat)

  function Sum(a: Tally, b: Tally): (sum: Tally) {
    Tally(a.armed + b.armed, a.fired + b.fired, a.ran + b.ran, a.dropped + b.dropped, a.issued + b.issued)
  }

  function Once(b: bool): (n: nat) {
    if b then 1 else 0
  }

  ghost predicate Armed(s: State, rid: RoomId) {
    rid in s.actors && s.actors[rid].st.emptyTimer == RoomModel.Armed
  }

  ghost function Callbacks(s: State, rid: RoomId): (n: nat) {
    if rid in s.actors then s.actors[rid].st.callbacks else 0
  }

  ghost function Requests(s: State, rid: RoomId): (n: nat) {
    if rid in s.actors then s.actors[rid].st.requests else 0
  }

  ghost predicate Happens(s: State, step: Step, rid: RoomId, event: Event) {
    step == OnRoom(rid, event) && EventEnabled(s, rid, event)
  }

  ghost function TallyStep(s: State, step: Step, rid: RoomId): (t: Tally) {
    var s' := Next(s, step);
    Tally(Once(!Armed(s, rid) && Armed(s', rid)),
          Once(Happens(s, step, rid, FireTimer)),
          Once(Happens(s, step, rid, RunAction(DoCallback)) && Callbacks(s, rid) > 0),
          Once(Happens(s, step, rid, DropCallback)),
          Once(Requests(s', rid) > Requests(s, rid)))
  }

  ghost function TallyOf(s: State, steps: seq<Step>, rid: RoomId): (t: Tally)
    decreases |steps|
  {
    if steps == [] then Tally(0, 0, 0, 0, 0)
    else Sum(TallyStep(s, steps[0], rid), TallyOf(Next(s, steps[0]), steps[1..], rid))
  }

  // ---------------------------------------------------------------- one step

  lemma DropKeepsRequests(r: RoomState, c: ClientId, onLeave: seq<bool>)
    ensures var d := DropOld(r, c, onLeave);
            d.callbacks == r.callbacks && d.config == r.config && (r.config.grace > 0 ==> d.requests == r.requests)
  {
    DropFrame(r, c, onLeave);
  }

  /** What a closure does to the callbacks under way and, under a grace, to the requests. */
  lemma ActAccounts(r: RoomState, a: Action)
    ensures Act(r, a).callbacks == r.callbacks - Once(a.DoCallback? && r.callbacks > 0)
    ensures r.config.grace > 0 && !a.DoCallback? ==> Act(r, a).requests == r.requests
  {
    match a
    case DoJoin(c, u, onJoin) => SeatFrame(r, c, u, onJoin);
    case DoReplace(prev, c, u, onLeave, onJoin) =>
      DropKeepsRequests(r, prev, onLeave);
      SeatFrame(DropOld(r, prev, onLeave), c, u, onJoin);
    case DoLeave(c, onLeave) => DropKeepsRequests(r, c, onLeave);
    case _ =>
  }

  ghost predicate Graceful(s: State, rid: RoomId) {
    rid in s.actors && s.actors[rid].st.config.grace > 0
  }

  lemma ClosureAccounts(s: State, c: ClientId, onLeave: seq<bool>, onJoin: seq<bool>, rid: RoomId)
    requires MoveEnabled(s, c, RunClosure(onLeave, onJoin)) && rid in s.actors
    ensures var s' := DoRunClosure(s, c, onLeave, onJoin);
            && s'.actors[rid].st.callbacks == s.actors[rid].st.callbacks
            && (Graceful(s, rid) ==> s'.actors[rid].st.requests == s.actors[rid].st.requests)
  {
    if s.ops[c].rid == rid {
      var r := s.actors[rid].st;
      match s.ops[c]
      case JoinQueued(_, replaced) => ActAccounts(r, JoinAction(s, c, rid, replaced, onLeave, onJoin));
      case LeaveQueued(_, leaver) => ActAccounts(r, DoLeave(leaver, onLeave));
      case ScheduleQueued(_) => ActAccounts(r, DoSchedule);
    }
  }

  lemma ResumeJoinAccounts(s: State, c: ClientId, rid: RoomId, replaced: Option<Session>, outcome: Outcome)
    requires rid in s.actors && (outcome.Refused? ==> !outcome.becameEmpty)
    ensures DoResumeJoin(s, c, rid, replaced, outcome).actors == s.actors
  {}

  /** The reactions of a caller touch no room: none sees a becameEmpty. */
  lemma ResumeAccounts(s: State, c: ClientId)
    requires WellFormed(s) && MoveEnabled(s, c, Resume)
    ensures DoResume(s, c).actors == s.actors
  {
    assert OpOk(s, c);
    match s.ops[c]
    case JoinRan(rid, replaced, outcome) => ResumeJoinAccounts(s, c, rid, replaced, outcome);
    case RollbackDue(_) =>
    case KickDue(_, _) =>
    case LeaveRan(_, _, _) =>
  }

  lemma MoveAccounts(s: State, c: ClientId, move: Move, rid: RoomId)
    requires WellFormed(s) && MoveEnabled(s, c, move)
    ensures var s' := ApplyMove(s, c, move);
            && s'.actors.Keys == s.actors.Keys
            && Callbacks(s', rid) == Callbacks(s, rid)
            && (Graceful(s, rid) ==> Requests(s', rid) == Requests(s, rid))
  {
    match move
    case RunClosure(onLeave, onJoin) =>
      if rid in s.actors {
        ClosureAccounts(s, c, onLeave, onJoin, rid);
      }
    case Resume =>
      ResumeAccounts(s, c);
    case _ =>
  }

  /** The accounts of one step balance. */
  ghost predicate Balanced(s: State, t: Tally, s': State, rid: RoomId) {
    && Callbacks(s', rid) + t.ran + t.dropped == Callbacks(s, rid) + t.fired
    && t.fired + Once(Armed(s', rid)) <= t.armed + Once(Armed(s, rid))
  }

  lemma RunActionBalances(s: State, rid: RoomId, a: Action)
    requires EventEnabled(s, rid, RunAction(a))
    ensures Balanced(s, TallyStep(s, OnRoom(rid, RunAction(a)), rid), ApplyEvent(s, rid, RunAction(a)), rid)
  {
    ActAccounts(s.actors[rid].st, a);
  }

  lemma TimerBalances(s: State, rid: RoomId, event: Event)
    requires EventEnabled(s, rid, event) && (event.FireTimer? || event.DropCallback?)
    ensures Balanced(s, TallyStep(s, OnRoom(rid, event), rid), ApplyEvent(s, rid, event), rid)
  {}

  lemma ElsewhereBalances(s: State, at: RoomId, event: Event, rid: RoomId)
    requires EventEnabled(s, at, event) && at != rid
    ensures Balanced(s, TallyStep(s, OnRoom(at, event), rid), ApplyEvent(s, at, event), rid)
  {}

  lemma OwnEventBalances(s: State, rid: RoomId, event: Event)
    requires EventEnabled(s, rid, event)
    ensures Balanced(s, TallyStep(s, OnRoom(rid, event), rid), ApplyEvent(s, rid, event), rid)
  {
    match event
    case RunAction(a) => RunActionBalances(s, rid, a);
    case FireTimer => TimerBalances(s, rid, event);
    case DropCallback => TimerBalances(s, rid, event);
    case _ =>
  }

  lemma EventBalances(s: State, at: RoomId, event: Event, rid: RoomId)
    requires EventEnabled(s, at, event)
    ensures Balanced(s, TallyStep(s, OnRoom(at, event), rid), ApplyEvent(s, at, event), rid)
  {
    if at == rid {
      OwnEventBalances(s, rid, event);
    } else {
      ElsewhereBalances(s, at, event, rid);
    }
  }

  lemma StepBalances(s: State, step: Step, rid: RoomId)
    requires WellFormed(s)
    ensures Balanced(s, TallyStep(s, step, rid), Next(s, step), rid)
  {
    match step
    case ByClient(c, move) =>
      if MoveEnabled(s, c, move) {
        MoveAccounts(s, c, move, rid);
      }
    case OnRoom(at, event) =>
      if EventEnabled(s, at, event) {
        EventBalances(s, at, event, rid);
      }
    case ShutdownAll =>
  }

  ghost predicate Lives(s: State, rid: RoomId) {
    rid in s.actors && s.actors[rid].status.Live?
  }

  lemma EventIssues(s: State, at: RoomId, event: Event, rid: RoomId)
    requires EventEnabled(s, at, event)
    ensures var s' := ApplyEvent(s, at, event);
            var t := TallyStep(s, OnRoom(at, event), rid);
            Graceful(s', rid) && Lives(s', rid) ==> t.issued <= t.ran && (rid in s.actors ==> Lives(s, rid))
  {
    if at == rid && event.RunAction? {
      ActAccounts(s.actors[rid].st, event.action);
    }
  }

  /** A live room with a grace requests a removal only as its timer's callback runs. */
  lemma StepIssues(s: State, step: Step, rid: RoomId)
    requires WellFormed(s) && Graceful(Next(s, step), rid) && Lives(Next(s, step), rid)
    ensures TallyStep(s, step, rid).issued <= TallyStep(s, step, rid).ran && (rid in s.actors ==> Lives(s, rid))
  {
    match step
    case ByClient(c, move) =>
      if MoveEnabled(s, c, move) {
        MoveAccounts(s, c, move, rid);
        MoveKeepsStatus(s, c, move, rid);
      }
    case OnRoom(at, event) =>
      if EventEnabled(s, at, event) {
        EventIssues(s, at, event, rid);
      }
    case ShutdownAll =>
  }

  lemma MoveKeepsStatus(s: State, c: ClientId, move: Move, rid: RoomId)
    requires MoveEnabled(s, c, move)
    ensures var s' := ApplyMove(s, c, move);
            && (rid in s'.actors <==> rid in s.actors)
            && (rid in s.actors ==> s'.actors[rid].status == s.actors[rid].status)
  {}

  // ---------------------------------------------------------------- over every run

  lemma {:induction false} RunBalances(s: State, steps: seq<Step>, rid: RoomId)
    requires WellFormed(s)
    ensures Balanced(s, TallyOf(s, steps, rid), Exec(s, steps), rid)
    decreases |steps|
  {
    if steps == [] {
    } else {
      StepBalances(s, steps[0], rid);
      StepKeepsWellFormed(s, steps[0]);
      RunBalances(Next(s, steps[0]), steps[1..], rid);
    }
  }

  /**
   Conservation, in every interleaving: every callback that was started has run, was dropped, or is still
   under way, each once; and the timer ran out at most as often as it was armed.
   */
  lemma CallbacksAreAccountedFor(owner: ClientId -> UserId, steps: seq<Step>, rid: RoomId)
    ensures var s := Exec(Init(owner), steps);
            var t := TallyOf(Init(owner), steps, rid);
            && t.fired == t.ran + t.dropped + Callbacks(s, rid)
            && t.fired + Once(Armed(s, rid)) <= t.armed
  {
    RoomRuns.RunsKeepSafe(Init(owner), []);
    RunBalances(Init(owner), steps, rid);
  }

  lemma {:induction false} RunIssues(s: State, steps: seq<Step>, rid: RoomId)
    requires WellFormed(s) && Graceful(Exec(s, steps), rid) && Lives(Exec(s, steps), rid)
    ensures TallyOf(s, steps, rid).issued <= TallyOf(s, steps, rid).ran
    ensures rid in s.actors ==> Lives(s, rid) && Graceful(s, rid)
    decreases |steps|
  {
    if steps == [] {
    } else {
      StepKeepsWellFormed(s, steps[0]);
      RunIssues(Next(s, steps[0]), steps[1..], rid);
      if rid in Next(s, steps[0]).actors {
        StepIssues(s, steps[0], rid);
      }
    }
  }

  /**
   The grace is waited out, in every interleaving: a room with a grace that is not shut down has requested
   its removal at most as often as its timer was armed and ran out.
   */
  lemma GraceIsWaitedOut(owner: ClientId -> UserId, steps: seq<Step>, rid: RoomId)
    requires var s := Exec(Init(owner), steps); Graceful(s, rid) && Lives(s, rid)
    ensures var t := TallyOf(Init(owner), steps, rid); t.issued <= t.ran <= t.fired <= t.armed
  {
    RoomRuns.RunsKeepSafe(Init(owner), []);
    RunIssues(Init(owner), steps, rid);
    CallbacksAreAccountedFor(owner, steps, rid);
  }
}
