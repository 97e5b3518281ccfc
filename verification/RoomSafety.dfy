/** What every interleaving of the room protocol keeps: records, removal obligations, exclusivity. */
module RoomSafety {
  import opened Base
  import opened RoomModel
  import opened SessionTable
  import opened RoomProtocol

  // ---------------------------------------------------------------- singleton records

  /** Every record names a registered room, of the record's own type, that enforces singletons. */
  ghost predicate RecordsOk(s: State) {
    && NoEmptyInner(s.sessions)
    && forall u, t :: Lookup(s.sessions, u, t).Some? ==> RecordOk(s, t, Lookup(s.sessions, u, t).value.room)
  }

  ghost predicate RecordOk(s: State, t: RoomType, rid: RoomId) {
    && rid in s.registered && rid in s.actors
    && s.actors[rid].st.config.typ == t && s.actors[rid].st.config.mode != Allow
  }

  lemma RecordsFrame(s: State, s': State)
    requires RecordsOk(s)
    requires s'.registered == s.registered && s'.sessions == s.sessions
    requires ConfigsKept(s, s')
    ensures RecordsOk(s')
  {
    forall u, t | Lookup(s'.sessions, u, t).Some? ensures RecordOk(s', t, Lookup(s'.sessions, u, t).value.room) {
      assert RecordOk(s, t, Lookup(s.sessions, u, t).value.room);
    }
  }

  lemma BeginKeepsRecords(s: State, c: ClientId, rid: RoomId)
    requires RecordsOk(s) && rid in s.actors && rid in s.registered
    ensures RecordsOk(DoBeginJoin(s, c, rid)) && RecordsOk(DoBeginLeave(s, c, rid))
  {
    forall s', u, t | s' in {DoBeginJoin(s, c, rid), DoBeginLeave(s, c, rid)} && Lookup(s'.sessions, u, t).Some?
      ensures RecordOk(s', t, Lookup(s'.sessions, u, t).value.room)
    {
      if Lookup(s'.sessions, u, t) == Lookup(s.sessions, u, t) {
        assert RecordOk(s, t, Lookup(s.sessions, u, t).value.room);
      }
    }
  }

  /** Records only go, and none that names a room other than the one unregistered. */
  lemma FewerRecords(s: State, s': State, gone: set<RoomId>)
    requires RecordsOk(s) && NoEmptyInner(s'.sessions) && ConfigsKept(s, s')
    requires s'.registered >= s.registered - gone
    requires forall u, t :: Lookup(s'.sessions, u, t).Some? ==>
               Lookup(s'.sessions, u, t) == Lookup(s.sessions, u, t) && Lookup(s.sessions, u, t).value.room !in gone
    ensures RecordsOk(s')
  {
    forall u, t | Lookup(s'.sessions, u, t).Some? ensures RecordOk(s', t, Lookup(s'.sessions, u, t).value.room) {
      assert RecordOk(s, t, Lookup(s.sessions, u, t).value.room);
    }
  }

  lemma RemoveKeepsRecords(s: State, rid: RoomId, requested: bool)
    requires RecordsOk(s) && EventEnabled(s, rid, Remove(requested))
    ensures RecordsOk(DoRemove(s, rid, requested))
  {
    var s' := DoRemove(s, rid, requested);
    if rid in s.registered {
      forall u, t | Lookup(s.sessions, u, t).Some? ensures RecordOk(s, t, Lookup(s.sessions, u, t).value.room) {}
      FewerRecords(s, s', {rid});
    } else {
      RecordsFrame(s, s');
    }
  }

  lemma MoveKeepsRecords(s: State, c: ClientId, move: Move)
    requires WellFormed(s) && RecordsOk(s) && MoveEnabled(s, c, move)
    ensures RecordsOk(ApplyMove(s, c, move))
  {
    match move
    case BeginJoin(rid) => BeginKeepsRecords(s, c, rid);
    case BeginLeave(rid) => BeginKeepsRecords(s, c, rid);
    case RunClosure(onLeave, onJoin) =>
      RecordsFrame(s, DoRunClosure(s, c, onLeave, onJoin));
    case Resume =>
      if s.ops[c].RollbackDue? {
        FewerRecords(s, DoResume(s, c), {});
      } else {
        RecordsFrame(s, DoResume(s, c));
      }
    case GiveUp => RecordsFrame(s, DoGiveUp(s, c));
  }

  lemma StepKeepsRecords(s: State, step: Step)
    requires WellFormed(s) && RecordsOk(s)
    ensures RecordsOk(Next(s, step))
  {
    match step
    case ByClient(c, move) =>
      if MoveEnabled(s, c, move) {
        MoveKeepsRecords(s, c, move);
      }
    case OnRoom(rid, event) =>
      if EventEnabled(s, rid, event) {
        match event
        case Create(_, _) => FewerRecords(s, Next(s, step), {});
        case Remove(requested) => RemoveKeepsRecords(s, rid, requested);
        case _ => RecordsFrame(s, Next(s, step));
      }
    case ShutdownAll =>
  }

  // ---------------------------------------------------------------- removal of emptied rooms

  /** Client c's request is a leave that emptied rid and has not scheduled its removal yet. */
  ghost predicate Obliged(s: State, c: ClientId, rid: RoomId) {
    c in s.ops && s.ops[c] in {LeaveRan(rid, true, true), ScheduleQueued(rid)}
  }

  ghost predicate Covered(s: State, rid: RoomId) {
    exists c :: Obliged(s, c, rid)
  }

  /** A registered room that was joined and would leak is some leave's obligation. */
  ghost predicate NoLeak(s: State) {
    && s.everJoined <= s.actors.Keys
    && forall rid :: rid in s.registered && rid in s.everJoined && Leaky(s.actors[rid].st) ==> Covered(s, rid)
  }

  /** NoLeak survives when no registered room became leaky and no obligation was dropped. */
  lemma NoLeakFrame(s: State, s': State)
    requires NoLeak(s) && s'.everJoined == s.everJoined <= s'.actors.Keys
    requires forall rid :: rid in s'.registered && rid in s'.everJoined && Leaky(s'.actors[rid].st) ==>
               rid in s.registered && Leaky(s.actors[rid].st)
    requires forall c, rid :: rid in s'.registered && Obliged(s, c, rid) ==> Obliged(s', c, rid)
    ensures NoLeak(s')
  {
    forall rid | rid in s'.registered && rid in s'.everJoined && Leaky(s'.actors[rid].st) ensures Covered(s', rid) {
      assert Covered(s, rid);
      var c :| Obliged(s, c, rid);
      assert Obliged(s', c, rid);
    }
  }

  lemma RunJoinKeepsNoLeak(s: State, c: ClientId, rid: RoomId, replaced: Option<Session>, a: Action)
    requires WellFormed(s) && NoLeak(s)
    requires c in s.ops && s.ops[c] == JoinQueued(rid, replaced) && rid in s.actors && (a.DoJoin? || a.DoReplace?)
    ensures NoLeak(DoRunJoin(s, c, rid, replaced, a))
  {
    var s' := DoRunJoin(s, c, rid, replaced, a);
    if Leaky(Act(s.actors[rid].st, a)) {
      ActLeaksOnlyByLeaving(s.actors[rid].st, a);
    }
    forall x | x in s'.registered && x in s'.everJoined && Leaky(s'.actors[x].st) ensures Covered(s', x) {
      assert x in s.everJoined && Leaky(s.actors[x].st);
      var d :| Obliged(s, d, x);
      assert Obliged(s', d, x);
    }
  }

  lemma RunLeaveKeepsNoLeak(s: State, c: ClientId, rid: RoomId, leaver: ClientId, onLeave: seq<bool>)
    requires WellFormed(s) && NoLeak(s)
    requires c in s.ops && s.ops[c] == LeaveQueued(rid, leaver) && rid in s.actors
    ensures NoLeak(DoRunLeave(s, c, rid, leaver, onLeave))
  {
    var s' := DoRunLeave(s, c, rid, leaver, onLeave);
    var r' := Act(s.actors[rid].st, DoLeave(leaver, onLeave));
    if Leaky(r') {
      ActLeaksOnlyByLeaving(s.actors[rid].st, DoLeave(leaver, onLeave));
    }
    forall x | x in s'.registered && x in s'.everJoined && Leaky(s'.actors[x].st) ensures Covered(s', x) {
      if x == rid && leaver in s.actors[rid].st.players {
        assert Obliged(s', c, rid);
      } else {
        var d :| Obliged(s, d, x);
        assert Obliged(s', d, x);
      }
    }
  }

  lemma RunScheduleKeepsNoLeak(s: State, c: ClientId, rid: RoomId)
    requires WellFormed(s) && NoLeak(s)
    requires c in s.ops && s.ops[c] == ScheduleQueued(rid) && rid in s.actors
    ensures NoLeak(DoRunSchedule(s, c, rid))
  {
    var s' := DoRunSchedule(s, c, rid);
    if Leaky(s'.actors[rid].st) {
      ActLeaksOnlyByLeaving(s.actors[rid].st, DoSchedule);
    }
    forall x | x in s'.registered && x in s'.everJoined && Leaky(s'.actors[x].st) ensures Covered(s', x) {
      var d :| Obliged(s, d, x);
      assert Obliged(s', d, x);
    }
  }

  /** A move of client c that changes no room. */
  lemma OpMoveKeepsNoLeak(s: State, s': State, c: ClientId)
    requires NoLeak(s) && OnlyOp(s, s', c)
    requires s'.actors == s.actors && s'.registered == s.registered
    requires forall rid :: rid in s.registered && Obliged(s, c, rid) ==> Obliged(s', c, rid)
    ensures NoLeak(s')
  {
    NoLeakFrame(s, s');
  }

  lemma ResumeKeepsNoLeak(s: State, c: ClientId)
    requires WellFormed(s) && NoLeak(s) && MoveEnabled(s, c, Resume)
    ensures NoLeak(DoResume(s, c))
  {
    ResumeKeepsWellFormed(s, c);
    OpMoveKeepsNoLeak(s, DoResume(s, c), c);
  }

  /** Only a room that is no longer registered lets a caller give up an obligation. */
  lemma GiveUpKeepsNoLeak(s: State, c: ClientId)
    requires WellFormed(s) && NoLeak(s) && MoveEnabled(s, c, GiveUp)
    ensures NoLeak(DoGiveUp(s, c))
  {
    assert s.ops[c].rid in s.actors ==> RoomOk(s, s.ops[c].rid);
    OpMoveKeepsNoLeak(s, DoGiveUp(s, c), c);
  }

  lemma RunClosureKeepsNoLeak(s: State, c: ClientId, onLeave: seq<bool>, onJoin: seq<bool>)
    requires WellFormed(s) && NoLeak(s) && MoveEnabled(s, c, RunClosure(onLeave, onJoin))
    ensures NoLeak(DoRunClosure(s, c, onLeave, onJoin))
  {
    match s.ops[c]
    case JoinQueued(rid, replaced) =>
      RunJoinKeepsNoLeak(s, c, rid, replaced, JoinAction(s, c, rid, replaced, onLeave, onJoin));
    case LeaveQueued(rid, leaver) => RunLeaveKeepsNoLeak(s, c, rid, leaver, onLeave);
    case ScheduleQueued(rid) => RunScheduleKeepsNoLeak(s, c, rid);
  }

  lemma MoveKeepsNoLeak(s: State, c: ClientId, move: Move)
    requires WellFormed(s) && NoLeak(s) && MoveEnabled(s, c, move)
    ensures NoLeak(ApplyMove(s, c, move))
  {
    match move
    case BeginJoin(rid) => OpMoveKeepsNoLeak(s, DoBeginJoin(s, c, rid), c);
    case BeginLeave(rid) => OpMoveKeepsNoLeak(s, DoBeginLeave(s, c, rid), c);
    case RunClosure(onLeave, onJoin) => RunClosureKeepsNoLeak(s, c, onLeave, onJoin);
    case Resume => ResumeKeepsNoLeak(s, c);
    case GiveUp => GiveUpKeepsNoLeak(s, c);
  }

  lemma RunActionKeepsNoLeak(s: State, rid: RoomId, a: Action)
    requires WellFormed(s) && NoLeak(s) && EventEnabled(s, rid, RunAction(a))
    ensures NoLeak(SetRoom(s, rid, Act(s.actors[rid].st, a)))
  {
    assert RoomOk(s, rid);
    if rid in s.registered && Leaky(Act(s.actors[rid].st, a)) {
      ActLeaksOnlyByLeaving(s.actors[rid].st, a);
    }
    NoLeakFrame(s, SetRoom(s, rid, Act(s.actors[rid].st, a)));
  }

  lemma RemoveKeepsNoLeak(s: State, rid: RoomId, requested: bool)
    requires WellFormed(s) && NoLeak(s) && EventEnabled(s, rid, Remove(requested))
    ensures NoLeak(DoRemove(s, rid, requested))
  {
    NoLeakFrame(s, DoRemove(s, rid, requested));
  }

  lemma CreateKeepsNoLeak(s: State, rid: RoomId, config: Config, keep: bool)
    requires WellFormed(s) && NoLeak(s) && EventEnabled(s, rid, Create(config, keep))
    ensures NoLeak(ApplyEvent(s, rid, Create(config, keep)))
  {
    NoLeakFrame(s, ApplyEvent(s, rid, Create(config, keep)));
  }

  lemma TimerKeepsNoLeak(s: State, rid: RoomId, event: Event)
    requires WellFormed(s) && NoLeak(s) && EventEnabled(s, rid, event)
    requires event.FireTimer? || event.DropCallback?
    ensures NoLeak(ApplyEvent(s, rid, event))
  {
    NoLeakFrame(s, ApplyEvent(s, rid, event));
  }

  lemma EventKeepsNoLeak(s: State, rid: RoomId, event: Event)
    requires WellFormed(s) && NoLeak(s) && EventEnabled(s, rid, event)
    ensures NoLeak(ApplyEvent(s, rid, event))
  {
    match event
    case RunAction(a) => RunActionKeepsNoLeak(s, rid, a);
    case Create(config, keep) => CreateKeepsNoLeak(s, rid, config, keep);
    case FireTimer => TimerKeepsNoLeak(s, rid, event);
    case DropCallback => TimerKeepsNoLeak(s, rid, event);
    case Remove(requested) => RemoveKeepsNoLeak(s, rid, requested);
    case _ => NoLeakFrame(s, ApplyEvent(s, rid, event));
  }

  lemma StepKeepsNoLeak(s: State, step: Step)
    requires WellFormed(s) && NoLeak(s)
    ensures NoLeak(Next(s, step))
  {
    match step
    case ByClient(c, move) =>
      if MoveEnabled(s, c, move) {
        MoveKeepsNoLeak(s, c, move);
      }
    case OnRoom(rid, event) =>
      if EventEnabled(s, rid, event) {
        EventKeepsNoLeak(s, rid, event);
      }
    case ShutdownAll =>
  }

  // ---------------------------------------------------------------- grace

  /** How a step may change the removal requests of a room with an EmptyGrace. */
  ghost predicate GraceSafeChange(r: RoomState, r': RoomState) {
    r'.requests > r.requests ==> IsEmpty(r') && !r'.keepOnEmpty
  }

  lemma RunClosureIsGraceSafe(s: State, c: ClientId, onLeave: seq<bool>, onJoin: seq<bool>, rid: RoomId)
    requires MoveEnabled(s, c, RunClosure(onLeave, onJoin)) && s.ops[c].rid == rid
    requires s.actors[rid].st.config.grace > 0
    ensures GraceSafeChange(s.actors[rid].st, DoRunClosure(s, c, onLeave, onJoin).actors[rid].st)
  {
    match s.ops[c]
    case JoinQueued(_, replaced) =>
      ActIsGraceSafe(s.actors[rid].st, JoinAction(s, c, rid, replaced, onLeave, onJoin));
    case LeaveQueued(_, leaver) =>
      ActIsGraceSafe(s.actors[rid].st, DoLeave(leaver, onLeave));
    case ScheduleQueued(_) =>
      ActIsGraceSafe(s.actors[rid].st, DoSchedule);
  }

  lemma MoveIsGraceSafe(s: State, c: ClientId, move: Move, rid: RoomId)
    requires WellFormed(s) && MoveEnabled(s, c, move)
    requires rid in s.actors && s.actors[rid].st.config.grace > 0
    ensures GraceSafeChange(s.actors[rid].st, ApplyMove(s, c, move).actors[rid].st)
  {
    match move
    case RunClosure(onLeave, onJoin) =>
      if s.ops[c].rid == rid {
        RunClosureIsGraceSafe(s, c, onLeave, onJoin, rid);
      }
    case Resume => ResumeKeepsWellFormed(s, c);
    case _ =>
  }

  lemma EventIsGraceSafe(s: State, at: RoomId, event: Event, rid: RoomId)
    requires EventEnabled(s, at, event)
    requires rid in s.actors && s.actors[rid].st.config.grace > 0
    ensures GraceSafeChange(s.actors[rid].st, ApplyEvent(s, at, event).actors[rid].st)
  {
    if event.RunAction? {
      ActIsGraceSafe(s.actors[at].st, event.action);
    }
  }

  lemma StepIsGraceSafe(s: State, step: Step, rid: RoomId)
    requires WellFormed(s) && rid in s.actors && s.actors[rid].st.config.grace > 0
    ensures GraceSafeChange(s.actors[rid].st, Next(s, step).actors[rid].st)
  {
    match step
    case ByClient(c, move) =>
      if MoveEnabled(s, c, move) {
        MoveIsGraceSafe(s, c, move, rid);
      }
    case OnRoom(at, event) =>
      if EventEnabled(s, at, event) {
        EventIsGraceSafe(s, at, event, rid);
      }
    case ShutdownAll =>
  }
}
