/**
 Where the room guarantees end. Each lemma takes an arbitrary well-formed state of the stated
 kind and gives an interleaving that breaks the stronger promise the code's comments suggest.
 */
module RoomLimits {
  import opened Base
  import opened RoomModel
  import opened SessionTable
  import opened RoomProtocol
  import opened RoomSafety
  import opened RoomExclusivity
  import opened ManagerModel
  import opened RoomRuns

  ghost predicate Leads(s: State, s': State) {
    exists steps :: Exec(s, steps) == s'
  }

  lemma LeadsByStep(s: State, step: Step)
    ensures Leads(s, Next(s, step))
  {
    assert [step][1..] == [];
    assert Exec(s, [step]) == Next(s, step);
  }

  lemma LeadsByEvent(s: State, rid: RoomId, event: Event)
    requires EventEnabled(s, rid, event)
    ensures Leads(s, ApplyEvent(s, rid, event))
  {
    LeadsByStep(s, OnRoom(rid, event));
  }

  lemma LeadsBySolo(s: State, c: ClientId, s': State)
    requires Solo(s, c, s')
    ensures Leads(s, s')
  {
    var moves :| Exec(s, ByOne(c, moves)) == s';
  }

  lemma LeadsTrans(s: State, s': State, s'': State)
    requires Leads(s, s') && Leads(s', s'')
    ensures Leads(s, s'')
  {
    var first :| Exec(s, first) == s';
    var second :| Exec(s', second) == s'';
    ExecAppend(s, first, second);
  }

  lemma {:induction false} RunsKeepWellFormed(s: State, steps: seq<Step>)
    requires WellFormed(s)
    ensures WellFormed(Exec(s, steps)) && ConfigsKept(s, Exec(s, steps))
    decreases |steps|
  {
    if steps == [] {
    } else {
      StepKeepsWellFormed(s, steps[0]);
      RunsKeepWellFormed(Next(s, steps[0]), steps[1..]);
    }
  }

  lemma LeadsKeepsWellFormed(s: State, s': State)
    requires WellFormed(s) && Leads(s, s')
    ensures WellFormed(s') && ConfigsKept(s, s')
  {
    var steps :| Exec(s, steps) == s';
    RunsKeepWellFormed(s, steps);
  }

  /** Client c holds a settled seat in the registered room rid. */
  ghost predicate SettledIn(s: State, rid: RoomId, c: ClientId) {
    Settled(s, rid, c, s.owner(c)) && rid in s.actors
  }

  lemma TableWithinCapacity(s: State)
    requires WellFormed(s)
    ensures AllWithinCapacity(TableOf(s))
  {
    forall rid | rid in TableOf(s).rooms ensures WithinCapacity(TableOf(s).rooms[rid]) {
      assert RoomOk(s, rid);
    }
  }

  /** In a well-formed state an idle client in a registered room is settled there. */
  lemma IdleIsSettled(s: State, rid: RoomId, c: ClientId)
    requires WellFormed(s) && rid in s.registered && SeatedAt(s, rid, c) && c !in s.ops
    ensures SettledIn(s, rid, c)
  {
    assert RoomOk(s, rid);
  }

  /**
   A seated client that rejoins a full or closed room keeps its seat and loses its record; its
   next join of another rejecting room of the type seats it twice. So the history condition of
   RejectExclusivity cannot be dropped.
   */
  lemma RefusedRejoinSeatsTwice(s: State, c: ClientId, rid: RoomId, other: RoomId) returns (s': State)
    requires WellFormed(s) && c !in s.ops && rid in s.registered && other in s.registered && rid != other
    requires var r, o := s.actors[rid].st, s.actors[other].st;
             && r.config.mode == Reject && o.config.mode == Reject && r.config.typ == o.config.typ
             && c in r.players && (Full(r) || !r.isOpen)
             && o.isOpen && !Full(o)
    requires Lookup(s.sessions, s.owner(c), s.actors[rid].st.config.typ) == Some(Session(rid, c))
    ensures Leads(s, s') && SettledIn(s', rid, c) && SettledIn(s', other, c)
  {
    TableWithinCapacity(s);
    RefusedRejoinThenSecondSeat(TableOf(s), s.owner(c), c, rid, other);
    var s1 := SoloJoin(s, c, rid, NO_HOOKS);
    LeadsBySolo(s, c, s1);
    LeadsKeepsWellFormed(s, s1);
    s' := SoloJoin(s1, c, other, NO_HOOKS);
    LeadsBySolo(s1, c, s');
    LeadsTrans(s, s1, s');
    LeadsKeepsWellFormed(s, s');
    assert rid in TableOf(s').rooms && other in TableOf(s').rooms;
    IdleIsSettled(s', rid, c);
    IdleIsSettled(s', other, c);
  }

  /** The closure of a queued plain join of an open room with a free place. */
  lemma LateJoinRuns(s: State, c: ClientId, rid: RoomId) returns (s': State)
    requires rid in s.actors && s.actors[rid].status.Live? && c in s.ops && s.ops[c] == JoinQueued(rid, None)
    requires s.actors[rid].st.isOpen && !Full(s.actors[rid].st)
    ensures Leads(s, s') && TablesKept(s, s')
    ensures exists isNew :: s'.ops == s.ops[c := JoinRan(rid, None, Seated(isNew))]
    ensures c in s'.actors[rid].st.players && s'.actors == s.actors[rid := s'.actors[rid]]
    ensures s'.actors[rid].status.Live? && s'.actors[rid].st.keepOnEmpty == s.actors[rid].st.keepOnEmpty
  {
    var a := DoJoin(c, s.owner(c), []);
    SoloRunJoin(s, c, rid, None, NO_HOOKS);
    s' := DoRunJoin(s, c, rid, None, a);
    LeadsBySolo(s, c, s');
    SeatFrame(s.actors[rid].st, c, s.owner(c), []);
  }

  lemma LateJoinEnds(s: State, c: ClientId, rid: RoomId, isNew: bool)
    requires rid in s.actors && c in s.ops && s.ops[c] == JoinRan(rid, None, Seated(isNew))
    ensures Leads(s, EndOp(s, c))
  {
    SoloResumeJoin(s, c, rid, None, Seated(isNew));
    LeadsBySolo(s, c, EndOp(s, c));
  }

  /** A queued plain join of an open room with a free place, run to its end. */
  lemma LateJoinCompletes(s: State, c: ClientId, rid: RoomId) returns (s': State)
    requires rid in s.actors && s.actors[rid].status.Live? && c in s.ops && s.ops[c] == JoinQueued(rid, None)
    requires s.actors[rid].st.isOpen && !Full(s.actors[rid].st)
    ensures Leads(s, s') && TablesKept(s, s') && s'.ops == s.ops - {c}
    ensures c in s'.actors[rid].st.players && s'.actors == s.actors[rid := s'.actors[rid]]
  {
    var s1 := LateJoinRuns(s, c, rid);
    var isNew :| s1.ops == s.ops[c := JoinRan(rid, None, Seated(isNew))];
    LateJoinEnds(s1, c, rid, isNew);
    s' := EndOp(s1, c);
    LeadsTrans(s, s1, s');
  }

  lemma LateJoinIsSeated(s: State, c: ClientId, rid: RoomId) returns (s': State)
    requires WellFormed(s) && rid in s.registered && c in s.ops && s.ops[c] == JoinQueued(rid, None)
    requires s.actors[rid].st.isOpen && !Full(s.actors[rid].st)
    ensures Leads(s, s') && WellFormed(s') && SettledIn(s', rid, c) && TablesKept(s, s')
    ensures s'.ops == s.ops - {c} && s'.actors == s.actors[rid := s'.actors[rid]]
  {
    assert RoomOk(s, rid);
    s' := LateJoinCompletes(s, c, rid);
    LeadsKeepsWellFormed(s, s');
    assert RoomOk(s', rid);
  }

  ghost predicate TakesReplacing(r: RoomState) {
    r.config.mode == Replace && r.isOpen && !Full(r)
  }

  /** While c1's admitted join is still queued, c2 of the same user takes the record over, start to end. */
  lemma TakeoverOfQueued(s: State, c1: ClientId, rid1: RoomId, c2: ClientId, rid2: RoomId) returns (s': State)
    requires WellFormed(s) && c1 in s.ops && s.ops[c1] == JoinQueued(rid1, None) && c2 !in s.ops
    requires rid1 in s.registered && rid2 in s.registered && rid1 != rid2 && c1 !in s.actors[rid1].st.players
    requires TakesReplacing(s.actors[rid2].st)
    requires Lookup(s.sessions, s.owner(c2), s.actors[rid2].st.config.typ) == Some(Session(rid1, c1))
    ensures Leads(s, s') && WellFormed(s') && ConfigsKept(s, s') && s'.ops == s.ops
    ensures rid1 in s'.registered && rid2 in s'.registered
    ensures s'.actors[rid1].st == s.actors[rid1].st && SeatedAt(s', rid2, c2)
  {
    TableWithinCapacity(s);
    TakeoverOfUnseated(TableOf(s), s.owner(c2), c2, rid2, Session(rid1, c1));
    s' := SoloJoin(s, c2, rid2, NO_HOOKS);
    LeadsBySolo(s, c2, s');
    LeadsKeepsWellFormed(s, s');
    assert rid1 in TableOf(s').rooms && rid2 in TableOf(s').rooms;
  }

  /** The locked phase of a join by a user without a record of the type. */
  lemma FirstRecord(s: State, c: ClientId, rid: RoomId) returns (s': State)
    requires WellFormed(s) && c !in s.ops && rid in s.registered && s.actors[rid].st.config.mode == Replace
    requires Lookup(s.sessions, s.owner(c), s.actors[rid].st.config.typ) == None
    ensures Leads(s, s') && WellFormed(s') && s'.ops == s.ops[c := JoinQueued(rid, None)]
    ensures s'.owner == s.owner && s'.actors == s.actors && s'.registered == s.registered
    ensures Lookup(s'.sessions, s.owner(c), s.actors[rid].st.config.typ) == Some(Session(rid, c))
  {
    LeadsByStep(s, ByClient(c, BeginJoin(rid)));
    BeginKeepsWellFormed(s, c, rid);
    s' := DoBeginJoin(s, c, rid);
  }

  /**
   Two overlapping replacing joins of one user: the second takes the record over and kicks the
   first client before it is seated, and then the first is seated too. So replacement excludes a
   second seat only when requests do not overlap.
   */
  lemma ReplaceRaceSeatsTwice(s: State, c1: ClientId, rid1: RoomId, c2: ClientId, rid2: RoomId) returns (s': State)
    requires WellFormed(s) && c1 !in s.ops && c2 !in s.ops && c1 != c2 && s.owner(c1) == s.owner(c2)
    requires rid1 in s.registered && rid2 in s.registered && rid1 != rid2
    requires TakesReplacing(s.actors[rid1].st) && TakesReplacing(s.actors[rid2].st)
    requires s.actors[rid2].st.config.typ == s.actors[rid1].st.config.typ
    requires Lookup(s.sessions, s.owner(c1), s.actors[rid1].st.config.typ) == None
    requires c1 !in s.actors[rid1].st.players
    ensures Leads(s, s') && SettledIn(s', rid1, c1) && SettledIn(s', rid2, c2)
  {
    var s1 := FirstRecord(s, c1, rid1);
    var s2 := TakeoverOfQueued(s1, c1, rid1, c2, rid2);
    LeadsTrans(s, s1, s2);
    s' := LateJoinIsSeated(s2, c1, rid1);
    LeadsTrans(s, s2, s');
    assert s'.actors[rid2] == s2.actors[rid2];
    IdleIsSettled(s', rid2, c2);
  }

  /** The only player's leave closure. */
  lemma LastLeaveRuns(s: State, leaver: ClientId, rid: RoomId) returns (s': State)
    requires rid in s.actors && s.actors[rid].status.Live?
    requires leaver in s.ops && s.ops[leaver] == LeaveQueued(rid, leaver)
    requires s.actors[rid].st.players.Keys == {leaver}
    ensures Leads(s, s')
    ensures s' == SetOp(SetRoom(s, rid, s.actors[rid].st.(players := map[])), leaver, LeaveRan(rid, true, true))
  {
    var r := s.actors[rid].st;
    SoloRunLeave(s, leaver, rid, leaver, []);
    assert r.players - {leaver} == map[];
    assert LeaveBody(r, leaver, []) == r.(players := map[]);
    s' := DoRunLeave(s, leaver, rid, leaver, []);
    LeadsBySolo(s, leaver, s');
  }

  lemma LastLeaveResumes(s: State, leaver: ClientId, rid: RoomId)
    requires rid in s.actors && leaver in s.ops && s.ops[leaver] == LeaveRan(rid, true, true)
    ensures Leads(s, SetOp(s, leaver, ScheduleQueued(rid)))
  {
    SoloResume(s, leaver);
    ResumeAfterLeave(s, leaver, rid, true, true);
    LeadsBySolo(s, leaver, SetOp(s, leaver, ScheduleQueued(rid)));
  }

  /** The only player's leave, up to its scheduling closure being queued. */
  lemma LastLeaveQueuesSchedule(s: State, leaver: ClientId, rid: RoomId) returns (s': State)
    requires rid in s.actors && s.actors[rid].status.Live? && rid in s.registered && leaver !in s.ops
    requires s.actors[rid].st.players.Keys == {leaver}
    ensures Leads(s, s') && s'.ops == s.ops[leaver := ScheduleQueued(rid)] && s'.owner == s.owner
    ensures s'.registered == s.registered && rid in s'.actors && s'.actors[rid].status.Live?
    ensures s'.actors[rid].st == s.actors[rid].st.(players := map[])
    ensures s'.sessions == Release(s.sessions, s.owner(leaver), leaver, rid, s.actors[rid].st.config)
  {
    var s1 := LeaveBegins(s, leaver, rid);
    s' := LastLeaveClosure(s1, leaver, rid);
    LeadsTrans(s, s1, s');
    assert s1.ops[leaver := ScheduleQueued(rid)] == s.ops[leaver := ScheduleQueued(rid)];
  }

  /** Its first closure, and the caller's reaction to it. */
  lemma LastLeaveClosure(s: State, leaver: ClientId, rid: RoomId) returns (s': State)
    requires rid in s.actors && s.actors[rid].status.Live?
    requires leaver in s.ops && s.ops[leaver] == LeaveQueued(rid, leaver)
    requires s.actors[rid].st.players.Keys == {leaver}
    ensures Leads(s, s') && s'.ops == s.ops[leaver := ScheduleQueued(rid)] && s'.owner == s.owner
    ensures s'.registered == s.registered && s'.sessions == s.sessions
    ensures s'.actors == s.actors[rid := s.actors[rid].(st := s.actors[rid].st.(players := map[]))]
  {
    var s2 := LastLeaveRuns(s, leaver, rid);
    LastLeaveResumes(s2, leaver, rid);
    s' := SetOp(s2, leaver, ScheduleQueued(rid));
    LeadsTrans(s, s2, s');
  }

  lemma LeaveBegins(s: State, c: ClientId, rid: RoomId) returns (s': State)
    requires rid in s.registered && rid in s.actors && c !in s.ops
    ensures Leads(s, s') && s'.ops == s.ops[c := LeaveQueued(rid, c)] && s'.actors == s.actors
    ensures s'.owner == s.owner && s'.registered == s.registered
    ensures s'.sessions == Release(s.sessions, s.owner(c), c, rid, s.actors[rid].st.config)
  {
    LeadsByStep(s, ByClient(c, BeginLeave(rid)));
    s' := DoBeginLeave(s, c, rid);
  }

  /** The removal a room has asked for, served. */
  lemma RequestServed(s: State, rid: RoomId) returns (s': State)
    requires rid in s.actors && rid in s.registered && s.actors[rid].st.requests > 0
    ensures Leads(s, s') && rid !in s'.registered && rid in s'.actors
    ensures s'.actors[rid].st.players == s.actors[rid].st.players && s'.actors[rid].status == s.actors[rid].status
  {
    LeadsByStep(s, OnRoom(rid, RoomProtocol.Remove(true)));
    s' := DoRemove(s, rid, true);
  }

  /** A queued scheduling closure of an unkept graceless room, and the removal it requests. */
  lemma ScheduleRemoves(s: State, leaver: ClientId, rid: RoomId) returns (s': State)
    requires rid in s.actors && s.actors[rid].status.Live? && rid in s.registered
    requires leaver in s.ops && s.ops[leaver] == ScheduleQueued(rid)
    requires !s.actors[rid].st.keepOnEmpty && s.actors[rid].st.config.grace <= 0
    ensures Leads(s, s') && rid !in s'.registered && rid in s'.actors
    ensures s'.actors[rid].st.players == s.actors[rid].st.players && s'.actors[rid].status.Live?
  {
    var s1 := ScheduleRuns(s, leaver, rid);
    s' := RequestServed(s1, rid);
    LeadsTrans(s, s1, s');
  }

  /** A queued scheduling closure. */
  lemma ScheduleRuns(s: State, leaver: ClientId, rid: RoomId) returns (s': State)
    requires rid in s.actors && s.actors[rid].status.Live?
    requires leaver in s.ops && s.ops[leaver] == ScheduleQueued(rid)
    ensures Leads(s, s') && s'.ops == s.ops - {leaver} && s'.owner == s.owner && TablesKept(s, s') && rid in s'.actors
    ensures s'.actors[rid].st == ScheduleEmptyRemoval(s.actors[rid].st) && s'.actors[rid].status.Live?
  {
    SoloSchedule(s, leaver, rid);
    s' := DoRunSchedule(s, leaver, rid);
    LeadsBySolo(s, leaver, s');
  }

  /** A plain join or a swap of an open empty room. */
  lemma EmptyRoomSeats(r: RoomState, rid: RoomId, replaced: Option<Session>, u: UserId, c: ClientId)
    requires IsEmpty(r) && r.isOpen
    ensures Act(r, JoinActionFor(rid, replaced, u, c, NO_HOOKS)) == r.(players := map[c := u], emptyTimer := NoTimer)
  {
    assert r.players[c := u] == map[c := u];
  }

  /** A client that the manager admits to an open empty room, up to its closure. */
  lemma JoinerSeated(s: State, c: ClientId, rid: RoomId) returns (s': State)
    requires rid in s.registered && rid in s.actors && s.actors[rid].status.Live? && c !in s.ops
    requires IsEmpty(s.actors[rid].st) && s.actors[rid].st.isOpen
    requires Admit(s.sessions, s.owner(c), c, rid, s.actors[rid].st.config).Admitted?
    ensures Leads(s, s') && s'.registered == s.registered && rid in s'.actors && s'.actors[rid].status.Live?
    ensures s'.actors[rid].st == s.actors[rid].st.(players := map[c := s.owner(c)], emptyTimer := NoTimer)
    ensures forall d :: d != c && d in s.ops ==> d in s'.ops && s'.ops[d] == s.ops[d]
  {
    var s1, replaced := AdmittedBegins(s, c, rid);
    s' := QueuedJoinSeats(s1, c, rid, replaced);
    LeadsTrans(s, s1, s');
  }

  lemma AdmittedBegins(s: State, c: ClientId, rid: RoomId) returns (s': State, replaced: Option<Session>)
    requires rid in s.registered && rid in s.actors && c !in s.ops
    requires Admit(s.sessions, s.owner(c), c, rid, s.actors[rid].st.config).Admitted?
    ensures Leads(s, s') && s'.ops == s.ops[c := JoinQueued(rid, replaced)]
    ensures s'.owner == s.owner && s'.actors == s.actors && s'.registered == s.registered
  {
    replaced := Admit(s.sessions, s.owner(c), c, rid, s.actors[rid].st.config).replaced;
    LeadsByStep(s, ByClient(c, BeginJoin(rid)));
    s' := DoBeginJoin(s, c, rid);
  }

  lemma QueuedJoinSeats(s: State, c: ClientId, rid: RoomId, replaced: Option<Session>) returns (s': State)
    requires rid in s.actors && s.actors[rid].status.Live? && c in s.ops && s.ops[c] == JoinQueued(rid, replaced)
    requires IsEmpty(s.actors[rid].st) && s.actors[rid].st.isOpen
    ensures Leads(s, s') && s'.registered == s.registered && rid in s'.actors && s'.actors[rid].status.Live?
    ensures s'.actors[rid].st == s.actors[rid].st.(players := map[c := s.owner(c)], emptyTimer := NoTimer)
    ensures forall d :: d != c && d in s.ops ==> d in s'.ops && s'.ops[d] == s.ops[d]
  {
    EmptyRoomSeats(s.actors[rid].st, rid, replaced, s.owner(c), c);
    SoloRunJoin(s, c, rid, replaced, NO_HOOKS);
    s' := DoRunJoin(s, c, rid, replaced, JoinActionFor(rid, replaced, s.owner(c), c, NO_HOOKS));
    LeadsBySolo(s, c, s');
  }

  /**
   Without a grace, a room can be removed from under a newcomer: the leaver's second closure does
   not look at the players again, so it requests the removal of a room that was joined meanwhile.
   */
  lemma ZeroGraceRemovesOccupiedRoom(s: State, leaver: ClientId, joiner: ClientId, rid: RoomId) returns (s': State)
    requires WellFormed(s) && leaver !in s.ops && joiner !in s.ops && leaver != joiner && rid in s.registered
    requires var r := s.actors[rid].st;
             && r.players.Keys == {leaver} && r.isOpen && !r.keepOnEmpty && r.config.grace <= 0
             && Admit(Release(s.sessions, s.owner(leaver), leaver, rid, r.config),
                      s.owner(joiner), joiner, rid, r.config).Admitted?
    ensures Leads(s, s') && rid !in s'.registered && rid in s'.actors
    ensures joiner in s'.actors[rid].st.players && s'.actors[rid].status.Live?
  {
    assert RoomOk(s, rid);
    var s1 := LastLeaveQueuesSchedule(s, leaver, rid);
    var s2 := JoinerSeated(s1, joiner, rid);
    LeadsTrans(s, s1, s2);
    s' := ScheduleRemoves(s2, leaver, rid);
    LeadsTrans(s, s2, s');
  }

  /** The grace of an empty room runs out, and the callback asks for its removal. */
  lemma GraceRunsOut(s: State, rid: RoomId) returns (s': State)
    requires rid in s.actors && s.actors[rid].status.Live?
    requires s.actors[rid].st.emptyTimer == Armed && IsEmpty(s.actors[rid].st) && !s.actors[rid].st.keepOnEmpty
    ensures Leads(s, s') && TablesKept(s, s') && s'.ops == s.ops && rid in s'.actors && s'.actors[rid].status.Live?
    ensures var r, r' := s.actors[rid].st, s'.actors[rid].st;
            r'.requests > 0 && r'.players == r.players && r'.isOpen == r.isOpen && r'.config == r.config
  {
    var s1 := TimerFires(s, rid);
    s' := CallbackAsks(s1, rid);
    LeadsTrans(s, s1, s');
  }

  lemma CallbackOfEmptyRoom(r: RoomState)
    requires r.callbacks > 0 && IsEmpty(r) && !r.keepOnEmpty
    ensures Act(r, DoCallback) == r.(callbacks := r.callbacks - 1, requests := r.requests + 1)
  {}

  lemma CallbackStep(s: State, rid: RoomId)
    requires rid in s.actors && s.actors[rid].status.Live? && s.actors[rid].st.callbacks > 0
    requires IsEmpty(s.actors[rid].st) && !s.actors[rid].st.keepOnEmpty
    ensures EventEnabled(s, rid, RunAction(DoCallback))
    ensures var r := s.actors[rid].st;
            ApplyEvent(s, rid, RunAction(DoCallback))
            == SetRoom(s, rid, r.(callbacks := r.callbacks - 1, requests := r.requests + 1))
  {
    CallbackOfEmptyRoom(s.actors[rid].st);
  }

  lemma CallbackAsks(s: State, rid: RoomId) returns (s': State)
    requires rid in s.actors && s.actors[rid].status.Live? && s.actors[rid].st.callbacks > 0
    requires IsEmpty(s.actors[rid].st) && !s.actors[rid].st.keepOnEmpty
    ensures Leads(s, s')
    ensures var r := s.actors[rid].st;
            s' == SetRoom(s, rid, r.(callbacks := r.callbacks - 1, requests := r.requests + 1))
  {
    CallbackStep(s, rid);
    s' := ApplyEvent(s, rid, RunAction(DoCallback));
    LeadsByEvent(s, rid, RunAction(DoCallback));
  }

  lemma TimerFires(s: State, rid: RoomId) returns (s': State)
    requires rid in s.actors && s.actors[rid].st.emptyTimer == Armed
    ensures Leads(s, s')
    ensures s' == SetRoom(s, rid, s.actors[rid].st.(emptyTimer := Fired, callbacks := s.actors[rid].st.callbacks + 1))
  {
    s' := ApplyEvent(s, rid, FireTimer);
    LeadsByEvent(s, rid, FireTimer);
  }

  /**
   With a grace too: the request is issued while the room is empty and served later, and a client
   that is seated in between finds its room removed.
   */
  lemma ExpiredGraceRemovesOccupiedRoom(s: State, joiner: ClientId, rid: RoomId) returns (s': State)
    requires WellFormed(s) && joiner !in s.ops && rid in s.registered
    requires var r := s.actors[rid].st;
             && r.emptyTimer == Armed && IsEmpty(r) && r.isOpen
             && Admit(s.sessions, s.owner(joiner), joiner, rid, r.config).Admitted?
    ensures Leads(s, s') && rid !in s'.registered && rid in s'.actors
    ensures joiner in s'.actors[rid].st.players && s'.actors[rid].status.Live?
  {
    assert RoomOk(s, rid);
    var s1 := GraceRunsOut(s, rid);
    var s2 := JoinerSeated(s1, joiner, rid);
    LeadsTrans(s, s1, s2);
    s' := RequestServed(s2, rid);
    LeadsTrans(s, s2, s');
  }

  // ---------------------------------------------------------------- the same, from scratch

  lemma FreshRoom(s: State, rid: RoomId, config: Config) returns (s': State)
    requires WellFormed(s) && rid !in s.actors
    ensures Leads(s, s') && WellFormed(s') && s'.owner == s.owner && s'.ops == s.ops && s'.sessions == s.sessions
    ensures s'.registered == s.registered + {rid}
    ensures s'.actors == s.actors[rid := Actor(NewRoom(config, false), Live)]
  {
    LeadsByStep(s, OnRoom(rid, RoomProtocol.Create(config, false)));
    EventKeepsWellFormed(s, rid, RoomProtocol.Create(config, false));
    s' := ApplyEvent(s, rid, RoomProtocol.Create(config, false));
  }

  /** Two fresh rooms of one type and mode, of which the first takes one player. */
  lemma TwoFreshRooms(owner: ClientId -> UserId, mode: Mode) returns (s: State)
    ensures Leads(Init(owner), s) && WellFormed(s) && s.owner == owner && s.ops == map[] && s.sessions == map[]
    ensures "a" in s.registered && "b" in s.registered && "a" in s.actors && "b" in s.actors
    ensures s.actors["a"].st == NewRoom(Config("t", 1, mode, 0), false)
    ensures s.actors["b"].st == NewRoom(Config("t", 0, mode, 0), false)
  {
    assert "b" != "a";
    var s1 := FreshRoom(Init(owner), "a", Config("t", 1, mode, 0));
    s := FreshRoom(s1, "b", Config("t", 0, mode, 0));
    LeadsTrans(Init(owner), s1, s);
  }

  /** A reachable state in which one client is settled in two rejecting rooms of one type. */
  lemma RejectSeatsTwiceFromScratch(owner: ClientId -> UserId) returns (s: State)
    ensures Leads(Init(owner), s) && SettledIn(s, "a", 1) && SettledIn(s, "b", 1)
    ensures s.actors["a"].st.config == Config("t", 1, Reject, 0) && s.actors["b"].st.config == Config("t", 0, Reject, 0)
  {
    var s1 := TwoFreshRooms(owner, Reject);
    FirstJoinFillsRoom(TableOf(s1), owner(1));
    var s2 := SoloJoin(s1, 1, "a", NO_HOOKS);
    LeadsBySolo(s1, 1, s2);
    LeadsTrans(Init(owner), s1, s2);
    LeadsKeepsWellFormed(s1, s2);
    assert "a" in TableOf(s2).rooms && "b" in TableOf(s2).rooms;
    s := RefusedRejoinSeatsTwice(s2, 1, "a", "b");
    LeadsTrans(Init(owner), s2, s);
    LeadsKeepsWellFormed(s2, s);
  }

  lemma FirstJoinFillsRoom(t: Table, u: UserId)
    requires "a" in t.rooms && "b" in t.rooms && t.sessions == map[]
    requires t.rooms["a"] == NewRoom(Config("t", 1, Reject, 0), false)
    requires t.rooms["b"] == NewRoom(Config("t", 0, Reject, 0), false)
    ensures var t' := JoinRoom(t, u, 1, "a", NO_HOOKS).0;
            && t'.rooms.Keys == t.rooms.Keys && t'.rooms["b"] == t.rooms["b"]
            && t'.rooms["a"].config == t.rooms["a"].config
            && 1 in t'.rooms["a"].players && Full(t'.rooms["a"])
            && Lookup(t'.sessions, u, "t") == Some(Session("a", 1))
  {
    JoinFrame(t.rooms["a"], "a", None, u, 1, NO_HOOKS);
    SeatFrame(t.rooms["a"], 1, u, []);
    assert "b" != "a";
  }

  /** A reachable state in which two clients of one user are settled in two replacing rooms of one type. */
  lemma ReplaceSeatsTwiceFromScratch(owner: ClientId -> UserId) returns (s: State)
    requires owner(1) == owner(2)
    ensures Leads(Init(owner), s) && SettledIn(s, "a", 1) && SettledIn(s, "b", 2)
  {
    var s1 := TwoFreshRooms(owner, Replace);
    s := ReplaceRaceSeatsTwice(s1, 1, "a", 2, "b");
    LeadsTrans(Init(owner), s1, s);
  }

  lemma FirstJoinOfPlainRoom(t: Table, u: UserId, grace: int)
    requires "a" in t.rooms && t.rooms["a"] == NewRoom(Config("t", 0, Allow, grace), false)
    ensures var t' := JoinRoom(t, u, 1, "a", NO_HOOKS).0;
            "a" in t'.rooms && t'.rooms["a"] == t.rooms["a"].(players := map[1 := u])
  {
    assert Seat(t.rooms["a"], 1, u, []) == t.rooms["a"].(players := map[1 := u]);
  }

  /** A fresh room that keeps no records, with one player. */
  lemma PlainRoomWithOnePlayer(owner: ClientId -> UserId, grace: int) returns (s: State)
    ensures Leads(Init(owner), s) && WellFormed(s) && s.ops == map[] && "a" in s.registered && "a" in s.actors
    ensures s.actors["a"].st == NewRoom(Config("t", 0, Allow, grace), false).(players := map[1 := owner(1)])
    ensures s.actors["a"].status.Live?
  {
    var s1 := FreshRoom(Init(owner), "a", Config("t", 0, Allow, grace));
    assert TableOf(s1).rooms["a"] == NewRoom(Config("t", 0, Allow, grace), false);
    FirstJoinOfPlainRoom(TableOf(s1), owner(1), grace);
    s := SoloJoin(s1, 1, "a", NO_HOOKS);
    LeadsBySolo(s1, 1, s);
    LeadsTrans(Init(owner), s1, s);
    LeadsKeepsWellFormed(s1, s);
    assert "a" in TableOf(s).rooms && RoomOk(s, "a");
  }

  /** A reachable state in which a running room with a player in it is no longer registered. */
  lemma OccupiedRoomRemovedFromScratch(owner: ClientId -> UserId) returns (s: State)
    ensures Leads(Init(owner), s) && "a" !in s.registered && "a" in s.actors
    ensures 2 in s.actors["a"].st.players && s.actors["a"].status.Live?
  {
    var s1 := PlainRoomWithOnePlayer(owner, 0);
    s := ZeroGraceRemovesOccupiedRoom(s1, 1, 2, "a");
    LeadsTrans(Init(owner), s1, s);
  }

  /** The only player of a room with a grace leaves, and its removal is scheduled. */
  lemma LastLeaveArms(s: State, leaver: ClientId, rid: RoomId) returns (s': State)
    requires WellFormed(s) && rid in s.registered && leaver !in s.ops && s.actors[rid].st.players.Keys == {leaver}
    requires !s.actors[rid].st.keepOnEmpty && s.actors[rid].st.config.grace > 0
    ensures Leads(s, s') && WellFormed(s') && s'.ops == s.ops && s'.registered == s.registered && rid in s'.actors
    ensures s'.actors[rid].st == s.actors[rid].st.(players := map[], emptyTimer := Armed)
  {
    assert RoomOk(s, rid);
    var s1 := LastLeaveQueuesSchedule(s, leaver, rid);
    s' := ScheduleRuns(s1, leaver, rid);
    LeadsTrans(s, s1, s');
    LeadsKeepsWellFormed(s, s');
    PutAndDrop(s.ops, leaver, ScheduleQueued(rid));
  }

  /** The same with a grace. */
  lemma GracefulRoomRemovedFromScratch(owner: ClientId -> UserId) returns (s: State)
    ensures Leads(Init(owner), s) && "a" !in s.registered && "a" in s.actors && s.actors["a"].st.config.grace > 0
    ensures 2 in s.actors["a"].st.players && s.actors["a"].status.Live?
  {
    var s1 := PlainRoomWithOnePlayer(owner, 1);
    var s2 := LastLeaveArms(s1, 1, "a");
    LeadsTrans(Init(owner), s1, s2);
    s := ExpiredGraceRemovesOccupiedRoom(s2, 2, "a");
    LeadsTrans(Init(owner), s2, s);
    LeadsKeepsWellFormed(s2, s);
  }

  /** The keep set from inside a running room. */
  lemma KeptFromInside(s: State, rid: RoomId) returns (s': State)
    requires rid in s.actors && s.actors[rid].status.Live?
    ensures Leads(s, s') && s' == SetRoom(s, rid, s.actors[rid].st.(keepOnEmpty := true, emptyTimer := NoTimer))
  {
    s' := ApplyEvent(s, rid, RunAction(DoKeep(true)));
    LeadsByEvent(s, rid, RunAction(DoKeep(true)));
  }

  /** A reachable state in which a running room is kept and no longer registered. */
  lemma KeptRoomRemovedFromScratch(owner: ClientId -> UserId) returns (s: State)
    ensures Leads(Init(owner), s) && "a" !in s.registered && "a" in s.actors
    ensures s.actors["a"].st.keepOnEmpty && s.actors["a"].status.Live?
  {
    var s1 := PlainRoomWithOnePlayer(owner, 0);
    var s2 := LastLeaveQueuesSchedule(s1, 1, "a");
    LeadsTrans(Init(owner), s1, s2);
    var s3 := ScheduleRuns(s2, 1, "a");
    LeadsTrans(Init(owner), s2, s3);
    var s4 := KeptFromInside(s3, "a");
    LeadsTrans(Init(owner), s3, s4);
    s := DoRemove(s4, "a", true);
    LeadsByEvent(s4, "a", RoomProtocol.Remove(true));
    LeadsTrans(Init(owner), s4, s);
  }

  /** A takeover refused by a closed room leaves the old seat, and no record of it. */
  lemma RefusedTakeover(t: Table, u: UserId, c: ClientId, rid: RoomId, taken: Session)
    requires rid in t.rooms && AllWithinCapacity(t) && taken.room != rid
    requires t.rooms[rid].config.mode == Replace && !t.rooms[rid].isOpen
    requires Lookup(t.sessions, u, t.rooms[rid].config.typ) == Some(taken)
    ensures var t' := JoinRoom(t, u, c, rid, NO_HOOKS).0;
            t'.rooms == t.rooms && Lookup(t'.sessions, u, t.rooms[rid].config.typ) == None
  {
    JoinFrame(t.rooms[rid], rid, Some(taken), u, c, NO_HOOKS);
  }

  /** A join of an open replacing room by a user without a record of its type. */
  lemma UnrecordedJoin(t: Table, u: UserId, c: ClientId, rid: RoomId)
    requires rid in t.rooms && AllWithinCapacity(t) && TakesReplacing(t.rooms[rid])
    requires Lookup(t.sessions, u, t.rooms[rid].config.typ) == None
    ensures var t' := JoinRoom(t, u, c, rid, NO_HOOKS).0;
            && t'.rooms.Keys == t.rooms.Keys && c in t'.rooms[rid].players
            && (forall x :: x in t.rooms && x != rid ==> t'.rooms[x] == t.rooms[x])
            && t'.rooms[rid].config == t.rooms[rid].config
            && Lookup(t'.sessions, u, t.rooms[rid].config.typ) == Some(Session(rid, c))
  {
    JoinFrame(t.rooms[rid], rid, None, u, c, NO_HOOKS);
  }

  /** What the table tells of a well-formed state. */
  lemma TableTells(s: State)
    requires WellFormed(s)
    ensures AllWithinCapacity(TableOf(s)) && TableOf(s).sessions == s.sessions
    ensures forall rid :: rid in TableOf(s).rooms <==> rid in s.registered
    ensures forall rid :: rid in s.registered ==> rid in s.actors && TableOf(s).rooms[rid] == s.actors[rid].st
  {
    TableWithinCapacity(s);
  }

  lemma JoinedAlone(s: State, c: ClientId, rid: RoomId) returns (s': State)
    requires WellFormed(s) && c !in s.ops
    ensures Leads(s, s') && WellFormed(s') && s'.ops == s.ops && s'.owner == s.owner
    ensures TableOf(s') == JoinRoom(TableOf(s), s.owner(c), c, rid, NO_HOOKS).0
  {
    s' := SoloJoin(s, c, rid, NO_HOOKS);
    LeadsBySolo(s, c, s');
    LeadsKeepsWellFormed(s, s');
  }

  lemma JoinUnrecorded(s: State, c: ClientId, rid: RoomId) returns (s': State)
    requires WellFormed(s) && s.ops == map[] && rid in s.registered && TakesReplacing(s.actors[rid].st)
    requires Lookup(s.sessions, s.owner(c), s.actors[rid].st.config.typ) == None
    ensures Leads(s, s') && WellFormed(s') && s'.ops == map[] && s'.owner == s.owner && s'.registered == s.registered
    ensures SettledIn(s', rid, c)
    ensures forall x :: x in s.registered && x != rid ==> s'.actors[x].st == s.actors[x].st
    ensures Lookup(s'.sessions, s.owner(c), s.actors[rid].st.config.typ) == Some(Session(rid, c))
  {
    TableTells(s);
    UnrecordedJoin(TableOf(s), s.owner(c), c, rid);
    s' := JoinedAlone(s, c, rid);
    TableTells(s');
    IdleIsSettled(s', rid, c);
  }

  lemma JoinClosedTakeover(s: State, c: ClientId, rid: RoomId, taken: Session) returns (s': State)
    requires WellFormed(s) && s.ops == map[] && rid in s.registered && taken.room != rid
    requires s.actors[rid].st.config.mode == Replace && !s.actors[rid].st.isOpen
    requires Lookup(s.sessions, s.owner(c), s.actors[rid].st.config.typ) == Some(taken)
    ensures Leads(s, s') && WellFormed(s') && s'.ops == map[] && s'.owner == s.owner && s'.registered == s.registered
    ensures forall x :: x in s.registered ==> x in s'.actors && s'.actors[x].st == s.actors[x].st
    ensures Lookup(s'.sessions, s.owner(c), s.actors[rid].st.config.typ) == None
  {
    TableTells(s);
    RefusedTakeover(TableOf(s), s.owner(c), c, rid, taken);
    s' := JoinedAlone(s, c, rid);
    TableTells(s');
  }

  lemma ActionRuns(s: State, rid: RoomId, a: Action)
    requires rid in s.actors && EventEnabled(s, rid, RunAction(a))
    ensures Leads(s, SetRoom(s, rid, Act(s.actors[rid].st, a)))
  {
    LeadsByStep(s, OnRoom(rid, RunAction(a)));
  }

  /** The open flag of a room, set from inside. */
  lemma OpenedTo(s: State, rid: RoomId, open: bool) returns (s': State)
    requires WellFormed(s) && rid in s.registered
    ensures Leads(s, s') && WellFormed(s') && rid in s.actors
    ensures s' == SetRoom(s, rid, s.actors[rid].st.(isOpen := open))
  {
    assert RoomOk(s, rid);
    s' := SetRoom(s, rid, s.actors[rid].st.(isOpen := open));
    ActionRuns(s, rid, DoOpen(open));
    LeadsKeepsWellFormed(s, s');
  }

  /**
   A reachable state in which one user is settled in two replacing rooms of one type although no
   two requests overlapped: a takeover was refused, and the record of the old seat went with it.
   */
  lemma RefusedTakeoverSeatsTwiceFromScratch(owner: ClientId -> UserId) returns (s: State)
    requires owner(1) == owner(2)
    ensures Leads(Init(owner), s) && SettledIn(s, "a", 1) && SettledIn(s, "b", 2) && s.ops == map[]
  {
    var s1 := TwoFreshRooms(owner, Replace);
    var s2 := JoinUnrecorded(s1, 1, "a");
    LeadsTrans(Init(owner), s1, s2);
    assert s2.actors["b"].st == s1.actors["b"].st;
    var s3 := OpenedTo(s2, "b", false);
    LeadsTrans(Init(owner), s2, s3);
    var s4 := JoinClosedTakeover(s3, 2, "b", Session("a", 1));
    LeadsTrans(Init(owner), s3, s4);
    var s5 := OpenedTo(s4, "b", true);
    LeadsTrans(Init(owner), s4, s5);
    s := JoinUnrecorded(s5, 2, "b");
    LeadsTrans(Init(owner), s5, s);
    IdleIsSettled(s, "a", 1);
  }
}
