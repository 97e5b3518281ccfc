/**
 The manager and its room actors as an interleaved protocol. A join is a locked phase, an
 actor closure, and sometimes a rollback or the kick of a replaced client; a leave is a locked
 phase and two actor closures; a removal unregisters a room and shuts its actor down later.
 Every locked phase and every closure is one step, and any client's steps interleave with any
 other's. Each client has at most one request in flight.
 */
module RoomProtocol {
  import opened Base
  import opened RoomModel
  import opened SessionTable

  /** Cancelled: the context is done, but the loop may still pick queued closures. */
  datatype Status = Live | Cancelled | Stopped

  datatype Actor = Actor(st: RoomState, status: Status)

  /** Where a client's request stands. */
  datatype Pc =
    | JoinQueued(rid: RoomId, replaced: Option<Session>)
    | JoinRan(rid: RoomId, replaced: Option<Session>, outcome: Outcome)
    | RollbackDue(rid: RoomId)
    | KickDue(rid: RoomId, kicked: ClientId)
    | LeaveQueued(rid: RoomId, leaver: ClientId)
    | LeaveRan(rid: RoomId, existed: bool, empty: bool)
    | ScheduleQueued(rid: RoomId)

  /**
   actors holds every room ever created, registered the ids in the manager's table. The last two
   fields are history: the rooms some client was seated in, and the (user, type) pairs of
   which a seated client's rejoin was refused.
   */
  datatype State = State(
    owner: ClientId -> UserId,
    actors: map<RoomId, Actor>,
    registered: set<RoomId>,
    sessions: Sessions,
    ops: map<ClientId, Pc>,
    everJoined: set<RoomId>,
    spoiled: set<(UserId, RoomType)>)

  /** What a client's request can do next; GiveUp is a caller of `do` that sees the context done. */
  datatype Move =
    | BeginJoin(target: RoomId)
    | BeginLeave(target: RoomId)
    | RunClosure(onLeave: seq<bool>, onJoin: seq<bool>)
    | Resume
    | GiveUp

  /** What can happen to a room besides client requests. */
  datatype Event =
    | Create(config: Config, keep: bool)
    | FireTimer
    | RunAction(action: Action)
    | DropCallback
    | Remove(requested: bool)
    | Cancel
    | Stop

  datatype Step = ByClient(c: ClientId, move: Move) | OnRoom(rid: RoomId, event: Event) | ShutdownAll

  ghost function Init(owner: ClientId -> UserId): (s: State) {
    State(owner, map[], {}, map[], map[], {}, {})
  }

  // ---------------------------------------------------------------- client requests

  ghost predicate MoveEnabled(s: State, c: ClientId, move: Move) {
    match move
    case BeginJoin(rid) => c !in s.ops && rid in s.registered && rid in s.actors
    case BeginLeave(rid) => c !in s.ops && rid in s.registered && rid in s.actors
    case RunClosure(_, _) =>
      && c in s.ops && s.ops[c].rid in s.actors && !s.actors[s.ops[c].rid].status.Stopped?
      && (s.ops[c].JoinQueued? || s.ops[c].LeaveQueued? || s.ops[c].ScheduleQueued?)
    case Resume =>
      && c in s.ops && (s.ops[c].rid in s.actors || s.ops[c].KickDue?)
      && (s.ops[c].JoinRan? || s.ops[c].RollbackDue? || s.ops[c].KickDue? || s.ops[c].LeaveRan?)
    case GiveUp =>
      && c in s.ops && s.ops[c].rid in s.actors && !s.actors[s.ops[c].rid].status.Live?
      && !s.ops[c].RollbackDue? && !s.ops[c].KickDue?
  }

  /** No room goes away or changes its configuration. */
  ghost predicate ConfigsKept(s: State, s': State) {
    s'.owner == s.owner &&
    forall rid :: rid in s.actors ==> rid in s'.actors && s'.actors[rid].st.config == s.actors[rid].st.config
  }

  /** The manager's two maps are untouched. */
  ghost predicate TablesKept(s: State, s': State) {
    s'.registered == s.registered && s'.sessions == s.sessions && ConfigsKept(s, s')
  }

  /** No request but c's changed, and no history. */
  ghost predicate OnlyOp(s: State, s': State, c: ClientId) {
    && (s'.ops == s.ops || s'.ops == s.ops - {c} || (c in s'.ops && s'.ops == s.ops[c := s'.ops[c]]))
    && s'.everJoined == s.everJoined && s'.spoiled == s.spoiled
  }

  ghost function SetRoom(s: State, rid: RoomId, st: RoomState): (after: State)
    requires rid in s.actors
  {
    s.(actors := s.actors[rid := s.actors[rid].(st := st)])
  }

  ghost function SetOp(s: State, c: ClientId, pc: Pc): (after: State) {
    s.(ops := s.ops[c := pc])
  }

  ghost function EndOp(s: State, c: ClientId): (after: State) {
    s.(ops := s.ops - {c})
  }

  ghost function DoBeginJoin(s: State, c: ClientId, rid: RoomId): (s': State)
    requires rid in s.actors
    ensures ConfigsKept(s, s') && s'.registered == s.registered && s'.actors == s.actors
    ensures OnlyOp(s, s', c)
  {
    match Admit(s.sessions, s.owner(c), c, rid, s.actors[rid].st.config)
    case Rejected => s
    case Admitted(sessions, replaced) => SetOp(s.(sessions := sessions), c, JoinQueued(rid, replaced))
  }

  ghost function DoBeginLeave(s: State, c: ClientId, rid: RoomId): (s': State)
    requires rid in s.actors
    ensures ConfigsKept(s, s') && s'.registered == s.registered && s'.actors == s.actors
    ensures OnlyOp(s, s', c)
  {
    SetOp(s.(sessions := Release(s.sessions, s.owner(c), c, rid, s.actors[rid].st.config)), c, LeaveQueued(rid, c))
  }

  /** Same room: an atomic swap; otherwise a plain join. */
  ghost function JoinAction(s: State, c: ClientId, rid: RoomId, replaced: Option<Session>,
                            onLeave: seq<bool>, onJoin: seq<bool>): (action: Action) {
    if replaced.Some? && replaced.value.room == rid
    then DoReplace(replaced.value.client, c, s.owner(c), onLeave, onJoin)
    else DoJoin(c, s.owner(c), onJoin)
  }

  ghost function DoRunJoin(s: State, c: ClientId, rid: RoomId, replaced: Option<Session>, a: Action): (s': State)
    requires rid in s.actors
    ensures TablesKept(s, s')
  {
    var r := s.actors[rid].st;
    var outcome := OutcomeOf(r, a);
    SetOp(SetRoom(s, rid, Act(r, a)), c, JoinRan(rid, replaced, outcome)).(
      everJoined := if outcome == Seated(true) then s.everJoined + {rid} else s.everJoined,
      spoiled := if outcome.Refused? && c in r.players then s.spoiled + {(s.owner(c), r.config.typ)} else s.spoiled)
  }

  ghost function DoRunLeave(s: State, c: ClientId, rid: RoomId, leaver: ClientId, onLeave: seq<bool>): (s': State)
    requires rid in s.actors
    ensures TablesKept(s, s')
    ensures OnlyOp(s, s', c)
  {
    var r := s.actors[rid].st;
    var r' := Act(r, DoLeave(leaver, onLeave));
    SetOp(SetRoom(s, rid, r'), c, LeaveRan(rid, leaver in r.players, IsEmpty(r')))
  }

  ghost function DoRunSchedule(s: State, c: ClientId, rid: RoomId): (s': State)
    requires rid in s.actors
    ensures TablesKept(s, s')
    ensures OnlyOp(s, s', c)
  {
    EndOp(SetRoom(s, rid, Act(s.actors[rid].st, DoSchedule)), c)
  }

  ghost function DoRunClosure(s: State, c: ClientId, onLeave: seq<bool>, onJoin: seq<bool>): (s': State)
    requires MoveEnabled(s, c, RunClosure(onLeave, onJoin))
    ensures TablesKept(s, s')
  {
    match s.ops[c]
    case JoinQueued(rid, replaced) =>
      DoRunJoin(s, c, rid, replaced, JoinAction(s, c, rid, replaced, onLeave, onJoin))
    case LeaveQueued(rid, leaver) => DoRunLeave(s, c, rid, leaver, onLeave)
    case ScheduleQueued(rid) => DoRunSchedule(s, c, rid)
  }

  /** A join that failed in the room: roll back unless the room keeps no records. */
  ghost function FailJoin(s: State, c: ClientId, rid: RoomId): (s': State)
    requires rid in s.actors
    ensures TablesKept(s, s') && s'.actors == s.actors
    ensures OnlyOp(s, s', c)
  {
    if s.actors[rid].st.config.mode != Allow then SetOp(s, c, RollbackDue(rid)) else EndOp(s, c)
  }

  ghost function DoResumeJoin(s: State, c: ClientId, rid: RoomId, replaced: Option<Session>,
                              outcome: Outcome): (s': State)
    requires rid in s.actors
    ensures TablesKept(s, s')
    ensures OnlyOp(s, s', c)
  {
    if outcome.Refused? then
      var r := s.actors[rid].st;
      FailJoin(if outcome.becameEmpty then SetRoom(s, rid, r.(requests := r.requests + 1)) else s, c, rid)
    else if replaced.Some? && replaced.value.room != rid then
      SetOp(s, c, KickDue(replaced.value.room, replaced.value.client))
    else EndOp(s, c)
  }

  ghost function DoResume(s: State, c: ClientId): (s': State)
    requires MoveEnabled(s, c, Resume)
    ensures ConfigsKept(s, s') && s'.registered == s.registered
    ensures !s.ops[c].RollbackDue? ==> s'.sessions == s.sessions
    ensures OnlyOp(s, s', c)
  {
    match s.ops[c]
    case JoinRan(rid, replaced, outcome) => DoResumeJoin(s, c, rid, replaced, outcome)
    case RollbackDue(rid) =>
      EndOp(s.(sessions := Rollback(s.sessions, s.owner(c), c, s.actors[rid].st.config.typ)), c)
    case KickDue(rid, kicked) => if rid in s.registered then SetOp(s, c, LeaveQueued(rid, kicked)) else EndOp(s, c)
    case LeaveRan(rid, existed, empty) => if existed && empty then SetOp(s, c, ScheduleQueued(rid)) else EndOp(s, c)
  }

  ghost function DoGiveUp(s: State, c: ClientId): (s': State)
    requires MoveEnabled(s, c, GiveUp)
    ensures TablesKept(s, s') && s'.actors == s.actors
    ensures OnlyOp(s, s', c)
  {
    if s.ops[c].JoinQueued? || s.ops[c].JoinRan? then FailJoin(s, c, s.ops[c].rid) else EndOp(s, c)
  }

  ghost function ApplyMove(s: State, c: ClientId, move: Move): (s': State)
    requires MoveEnabled(s, c, move)
    ensures ConfigsKept(s, s') && s'.registered == s.registered
  {
    match move
    case BeginJoin(rid) => DoBeginJoin(s, c, rid)
    case BeginLeave(rid) => DoBeginLeave(s, c, rid)
    case RunClosure(onLeave, onJoin) => DoRunClosure(s, c, onLeave, onJoin)
    case Resume => DoResume(s, c)
    case GiveUp => DoGiveUp(s, c)
  }

  // ---------------------------------------------------------------- room events

  ghost predicate EventEnabled(s: State, rid: RoomId, event: Event) {
    if event.Create? then rid !in s.actors
    else
      && rid in s.actors
      && var Actor(r, status) := s.actors[rid];
         match event
         case FireTimer => r.emptyTimer == Armed
         case RunAction(a) =>
           // A closure whose caller gave up stays queued, and may still run before the loop stops.
           || status.Cancelled?
           || (status.Live? && (a.DoKeep? || a.DoOpen? || (a.DoCallback? && r.callbacks > 0)))
         case DropCallback => !status.Live? && r.callbacks > 0
         case Remove(requested) => requested ==> r.requests > 0
         case Cancel => rid !in s.registered && status.Live?
         case Stop => status.Cancelled?
  }

  ghost function DoRemove(s: State, rid: RoomId, requested: bool): (after: State)
    requires rid in s.actors && (requested ==> s.actors[rid].st.requests > 0)
  {
    var r := s.actors[rid].st;
    var s' := if requested then SetRoom(s, rid, r.(requests := r.requests - 1)) else s;
    if rid in s.registered
    then s'.(registered := s.registered - {rid}, sessions := Cleanup(s.sessions, r.config.typ, rid))
    else s'
  }

  ghost function ApplyEvent(s: State, rid: RoomId, event: Event): (s': State)
    requires EventEnabled(s, rid, event)
    ensures ConfigsKept(s, s')
  {
    match event
    case Create(config, keep) =>
      s.(actors := s.actors[rid := Actor(NewRoom(config, keep), Live)], registered := s.registered + {rid})
    case FireTimer =>
      SetRoom(s, rid, s.actors[rid].st.(emptyTimer := Fired, callbacks := s.actors[rid].st.callbacks + 1))
    case RunAction(a) => SetRoom(s, rid, Act(s.actors[rid].st, a))
    case DropCallback => SetRoom(s, rid, s.actors[rid].st.(callbacks := s.actors[rid].st.callbacks - 1))
    case Remove(requested) => DoRemove(s, rid, requested)
    case Cancel => s.(actors := s.actors[rid := s.actors[rid].(status := Cancelled)])
    case Stop => s.(actors := s.actors[rid := Actor(CancelEmptyRemoval(s.actors[rid].st), Stopped)])
  }

  // ---------------------------------------------------------------- runs

  /** A step that is not enabled is skipped, so that every sequence of steps is a run. */
  ghost function Next(s: State, step: Step): (s': State)
    ensures ConfigsKept(s, s')
  {
    match step
    case ByClient(c, move) => if MoveEnabled(s, c, move) then ApplyMove(s, c, move) else s
    case OnRoom(rid, event) => if EventEnabled(s, rid, event) then ApplyEvent(s, rid, event) else s
    case ShutdownAll => s.(registered := {}, sessions := map[])
  }

  /** What happens to a room takes no request further. */
  lemma EventKeepsOps(s: State, rid: RoomId, event: Event)
    requires EventEnabled(s, rid, event)
    ensures ApplyEvent(s, rid, event).ops == s.ops
  {}

  ghost function Exec(s: State, steps: seq<Step>): (after: State)
    decreases |steps|
  {
    if steps == [] then s else Exec(Next(s, steps[0]), steps[1..])
  }

  // ---------------------------------------------------------------- rooms and requests

  ghost predicate RoomOk(s: State, rid: RoomId)
    requires rid in s.actors
  {
    var r := s.actors[rid].st;
    && WithinCapacity(r)
    && KeptIsDisarmed(r)
    && (rid in s.registered ==>
          s.actors[rid].status.Live? && forall c :: c in r.players ==> r.players[c] == s.owner(c))
  }

  ghost predicate OpOk(s: State, c: ClientId)
    requires c in s.ops
  {
    && (s.ops[c].rid in s.actors || s.ops[c].KickDue?)
    && (s.ops[c].JoinQueued? && s.ops[c].replaced.Some? ==> s.actors[s.ops[c].rid].st.config.mode == Replace)
    && (s.ops[c].JoinRan? && s.ops[c].outcome.Refused? ==> !s.ops[c].outcome.becameEmpty)
    && (s.ops[c].RollbackDue? ==> s.actors[s.ops[c].rid].st.config.mode != Allow)
  }

  ghost predicate WellFormed(s: State) {
    && s.registered <= s.actors.Keys
    && (forall rid :: rid in s.actors ==> RoomOk(s, rid))
    && (forall c :: c in s.ops ==> OpOk(s, c))
  }

  /** The action seats a client only as the user it belongs to. */
  ghost predicate Honest(s: State, a: Action) {
    match a
    case DoJoin(c, u, _) => u == s.owner(c)
    case DoReplace(_, c, u, _, _) => u == s.owner(c)
    case _ => true
  }

  lemma RoomAfterAct(s: State, rid: RoomId, a: Action)
    requires rid in s.actors && RoomOk(s, rid) && (rid in s.registered ==> Honest(s, a))
    ensures RoomOk(SetRoom(s, rid, Act(s.actors[rid].st, a)), rid)
  {
    var r := s.actors[rid].st;
    ActKeepsCapacity(r, a);
    ActIsGraceSafe(r, a);
    ActFrames(r, a);
  }

  /** The outcome of a join closure, in terms of the room before and after it. */
  lemma JoinOutcome(s: State, c: ClientId, rid: RoomId, replaced: Option<Session>, onLeave: seq<bool>,
                    onJoin: seq<bool>)
    requires rid in s.actors && RoomOk(s, rid)
    ensures var r := s.actors[rid].st;
            var a := JoinAction(s, c, rid, replaced, onLeave, onJoin);
            var r' := Act(r, a);
            match OutcomeOf(r, a)
            case Seated(isNew) => c in r'.players && (!isNew ==> r' == r)
            case Refused(_, becameEmpty) => r' == r && !becameEmpty
  {
    var r := s.actors[rid].st;
    SeatFrame(r, c, s.owner(c), onJoin);
    if replaced.Some? {
      ReplaceAllOrNothing(r, replaced.value.client, c, s.owner(c), onLeave, onJoin);
    }
  }

  /** WellFormed survives a change that leaves rooms and requests alone or leaves them well-formed. */
  lemma WellFormedFrame(s: State, s': State)
    requires WellFormed(s)
    requires s'.owner == s.owner && s'.registered <= s'.actors.Keys
    requires forall rid :: rid in s.actors ==> rid in s'.actors && s'.actors[rid].st.config == s.actors[rid].st.config
    requires forall rid :: rid in s'.actors ==>
               || (rid in s.actors && s'.actors[rid] == s.actors[rid] && (rid in s'.registered ==> rid in s.registered))
               || RoomOk(s', rid)
    requires forall c :: c in s'.ops ==> (c in s.ops && s'.ops[c] == s.ops[c]) || OpOk(s', c)
    ensures WellFormed(s')
  {
    forall c | c in s'.ops ensures OpOk(s', c) {
      if c in s.ops && s'.ops[c] == s.ops[c] {
        assert OpOk(s, c);
      }
    }
  }

  lemma RunJoinKeepsWellFormed(s: State, c: ClientId, rid: RoomId, replaced: Option<Session>, onLeave: seq<bool>,
                               onJoin: seq<bool>)
    requires WellFormed(s) && rid in s.actors
    ensures WellFormed(DoRunJoin(s, c, rid, replaced, JoinAction(s, c, rid, replaced, onLeave, onJoin)))
  {
    var a := JoinAction(s, c, rid, replaced, onLeave, onJoin);
    JoinOutcome(s, c, rid, replaced, onLeave, onJoin);
    RoomAfterAct(s, rid, a);
    var s' := DoRunJoin(s, c, rid, replaced, a);
    assert RoomOk(s', rid) && OpOk(s', c);
    WellFormedFrame(s, s');
  }

  lemma RunClosureKeepsWellFormed(s: State, c: ClientId, onLeave: seq<bool>, onJoin: seq<bool>)
    requires WellFormed(s) && MoveEnabled(s, c, RunClosure(onLeave, onJoin))
    ensures WellFormed(DoRunClosure(s, c, onLeave, onJoin))
  {
    match s.ops[c]
    case JoinQueued(rid, replaced) =>
      RunJoinKeepsWellFormed(s, c, rid, replaced, onLeave, onJoin);
    case LeaveQueued(rid, leaver) =>
      RoomAfterAct(s, rid, DoLeave(leaver, onLeave));
      assert RoomOk(DoRunLeave(s, c, rid, leaver, onLeave), rid);
      WellFormedFrame(s, DoRunLeave(s, c, rid, leaver, onLeave));
    case ScheduleQueued(rid) =>
      RoomAfterAct(s, rid, DoSchedule);
      assert RoomOk(DoRunSchedule(s, c, rid), rid);
      WellFormedFrame(s, DoRunSchedule(s, c, rid));
  }

  /** A move of client c that changes no room. */
  lemma OpMoveKeepsWellFormed(s: State, s': State, c: ClientId)
    requires WellFormed(s)
    requires s'.owner == s.owner && s'.actors == s.actors && s'.registered == s.registered
    requires s'.ops == s.ops || s'.ops == s.ops - {c} || (c in s'.ops && s'.ops == s.ops[c := s'.ops[c]] && OpOk(s', c))
    ensures WellFormed(s')
  {
    WellFormedFrame(s, s');
  }

  lemma BeginKeepsWellFormed(s: State, c: ClientId, rid: RoomId)
    requires WellFormed(s) && rid in s.actors
    ensures WellFormed(DoBeginJoin(s, c, rid)) && WellFormed(DoBeginLeave(s, c, rid))
  {
    OpMoveKeepsWellFormed(s, DoBeginJoin(s, c, rid), c);
    OpMoveKeepsWellFormed(s, DoBeginLeave(s, c, rid), c);
  }

  lemma ResumeJoinKeepsWellFormed(s: State, c: ClientId)
    requires WellFormed(s) && MoveEnabled(s, c, Resume) && s.ops[c].JoinRan?
    ensures DoResume(s, c).actors == s.actors && WellFormed(DoResume(s, c))
  {
    assert OpOk(s, c);
    var s' := DoResumeJoin(s, c, s.ops[c].rid, s.ops[c].replaced, s.ops[c].outcome);
    OpMoveKeepsWellFormed(s, s', c);
  }

  lemma ResumeKeepsWellFormed(s: State, c: ClientId)
    requires WellFormed(s) && MoveEnabled(s, c, Resume)
    ensures DoResume(s, c).actors == s.actors && WellFormed(DoResume(s, c))
  {
    if s.ops[c].JoinRan? {
      ResumeJoinKeepsWellFormed(s, c);
    } else {
      assert OpOk(s, c);
      OpMoveKeepsWellFormed(s, DoResume(s, c), c);
    }
  }

  lemma GiveUpKeepsWellFormed(s: State, c: ClientId)
    requires WellFormed(s) && MoveEnabled(s, c, GiveUp)
    ensures WellFormed(DoGiveUp(s, c))
  {
    OpMoveKeepsWellFormed(s, DoGiveUp(s, c), c);
  }

  lemma MoveKeepsWellFormed(s: State, c: ClientId, move: Move)
    requires WellFormed(s) && MoveEnabled(s, c, move)
    ensures WellFormed(ApplyMove(s, c, move))
  {
    match move
    case BeginJoin(rid) => BeginKeepsWellFormed(s, c, rid);
    case BeginLeave(rid) => BeginKeepsWellFormed(s, c, rid);
    case RunClosure(onLeave, onJoin) => RunClosureKeepsWellFormed(s, c, onLeave, onJoin);
    case Resume => ResumeKeepsWellFormed(s, c);
    case GiveUp => GiveUpKeepsWellFormed(s, c);
  }

  lemma EventKeepsWellFormed(s: State, rid: RoomId, event: Event)
    requires WellFormed(s) && EventEnabled(s, rid, event)
    ensures WellFormed(ApplyEvent(s, rid, event))
  {
    if event.RunAction? {
      RoomAfterAct(s, rid, event.action);
    }
    var s' := ApplyEvent(s, rid, event);
    assert RoomOk(s', rid);
    WellFormedFrame(s, s');
  }

  lemma StepKeepsWellFormed(s: State, step: Step)
    requires WellFormed(s)
    ensures WellFormed(Next(s, step))
  {
    match step
    case ByClient(c, move) =>
      if MoveEnabled(s, c, move) {
        MoveKeepsWellFormed(s, c, move);
      }
    case OnRoom(rid, event) =>
      if EventEnabled(s, rid, event) {
        EventKeepsWellFormed(s, rid, event);
      }
    case ShutdownAll =>
      WellFormedFrame(s, Next(s, step));
  }
}
