/**
 Reject exclusivity over every interleaving: while no room of a type lets a newcomer take a
 record over, and no seated client of the user was refused a rejoin in that type, the user never
 holds two settled seats of the type.
 */
module RoomExclusivity {
  import opened Base
  import opened RoomModel
  import opened SessionTable
  import opened RoomProtocol

  /** Every room ever created with this type either keeps no records or rejects a second seat. */
  ghost predicate NoTakeover(s: State, t: RoomType) {
    forall rid :: rid in s.actors && s.actors[rid].st.config.typ == t ==>
      s.actors[rid].st.config.mode == Allow || s.actors[rid].st.config.mode == Reject
  }

  ghost predicate Enforces(s: State, rid: RoomId, u: UserId) {
    && rid in s.registered && rid in s.actors && s.actors[rid].st.config.mode == Reject
    && NoTakeover(s, s.actors[rid].st.config.typ)
    && (u, s.actors[rid].st.config.typ) !in s.spoiled
  }

  ghost predicate SeatedAt(s: State, rid: RoomId, c: ClientId) {
    rid in s.actors && c in s.actors[rid].st.players
  }

  /** Client c's own leave of rid has passed the manager and not reached the room. */
  ghost predicate Leaving(s: State, rid: RoomId, c: ClientId) {
    c in s.ops && s.ops[c] == LeaveQueued(rid, c)
  }

  /** A seat in a registered room whose client is not on its way out. */
  ghost predicate Settled(s: State, rid: RoomId, c: ClientId, u: UserId) {
    rid in s.registered && SeatedAt(s, rid, c) && s.actors[rid].st.players[c] == u && !Leaving(s, rid, c)
  }

  ghost predicate Reserved(s: State, rid: RoomId, c: ClientId)
    requires rid in s.actors
  {
    Lookup(s.sessions, s.owner(c), s.actors[rid].st.config.typ) == Some(Session(rid, c))
  }

  /** Another room that shares rid's type and keeps records. */
  ghost predicate Competes(s: State, other: RoomId, rid: RoomId) {
    && other != rid && other in s.actors && rid in s.actors
    && s.actors[other].st.config.typ == s.actors[rid].st.config.typ
    && s.actors[other].st.config.mode != Allow
  }

  /** What client c's request in flight promises about room rid. */
  ghost predicate RequestOk(s: State, rid: RoomId, c: ClientId)
    requires rid in s.actors && c in s.ops
  {
    var pc := s.ops[c];
    && (pc == JoinQueued(rid, None) ==> Reserved(s, rid, c))
    && ((pc.JoinQueued? || pc.JoinRan? || pc.RollbackDue?) && Competes(s, pc.rid, rid) ==> !SeatedAt(s, rid, c))
    && (((pc.JoinRan? && pc.outcome.Refused?) || pc.RollbackDue?) && pc.rid == rid ==> !SeatedAt(s, rid, c))
  }

  ghost predicate ExclusiveAt(s: State, rid: RoomId, c: ClientId) {
    Enforces(s, rid, s.owner(c)) ==>
      && (SeatedAt(s, rid, c) && !Leaving(s, rid, c) ==> Reserved(s, rid, c))
      && (c in s.ops ==> RequestOk(s, rid, c))
  }

  ghost predicate Exclusive(s: State) {
    forall rid, c :: ExclusiveAt(s, rid, c)
  }

  /** Enforcement, once lost, is not regained: configurations stay and history grows. */
  lemma EnforcedBefore(s: State, s': State, rid: RoomId, u: UserId)
    requires ConfigsKept(s, s') && s.spoiled <= s'.spoiled && rid in s.registered && rid in s.actors
    ensures Enforces(s', rid, u) ==> Enforces(s, rid, u)
  {
    if Enforces(s', rid, u) {
      forall x | x in s.actors && s.actors[x].st.config.typ == s.actors[rid].st.config.typ
        ensures s.actors[x].st.config.mode in {Allow, Reject}
      {
        assert x in s'.actors && s'.actors[x].st.config == s.actors[x].st.config;
      }
    }
  }

  lemma BeginJoinKeepsExclusive(s: State, d: ClientId, x: RoomId)
    requires WellFormed(s) && Exclusive(s) && MoveEnabled(s, d, BeginJoin(x))
    ensures Exclusive(DoBeginJoin(s, d, x))
  {
    var s' := DoBeginJoin(s, d, x);
    forall rid, c ensures ExclusiveAt(s', rid, c) {
      if Enforces(s', rid, s'.owner(c)) {
        EnforcedBefore(s, s', rid, s.owner(c));
        assert ExclusiveAt(s, rid, c) && ExclusiveAt(s, rid, d);
        assert s'.actors == s.actors;
      }
    }
  }

  lemma BeginLeaveKeepsExclusive(s: State, d: ClientId, x: RoomId)
    requires WellFormed(s) && Exclusive(s) && MoveEnabled(s, d, BeginLeave(x))
    ensures Exclusive(DoBeginLeave(s, d, x))
  {
    var s' := DoBeginLeave(s, d, x);
    forall rid, c ensures ExclusiveAt(s', rid, c) {
      if Enforces(s', rid, s'.owner(c)) {
        EnforcedBefore(s, s', rid, s.owner(c));
        assert ExclusiveAt(s, rid, c);
      }
    }
  }

  /** A pair is unaffected when its request, its record and its room's players are, but for leaving. */
  lemma ExclusiveAtFrame(s: State, s': State, rid: RoomId, c: ClientId)
    requires ExclusiveAt(s, rid, c) && rid in s.actors && (rid in s'.registered ==> rid in s.registered)
    requires ConfigsKept(s, s') && s.spoiled <= s'.spoiled
    requires Reserved(s, rid, c) ==> Reserved(s', rid, c)
    requires SeatedAt(s', rid, c) ==> SeatedAt(s, rid, c)
    requires c in s'.ops <==> c in s.ops
    requires c in s.ops ==> s'.ops[c] == s.ops[c] && (s.ops[c].rid in s.actors || s.ops[c].KickDue?)
    ensures ExclusiveAt(s', rid, c)
  {
    if Enforces(s', rid, s'.owner(c)) {
      EnforcedBefore(s, s', rid, s.owner(c));
    }
  }

  /** The joiner's own pairs: a refused client that is seated spoils its user. */
  lemma RunJoinAt(s: State, d: ClientId, x: RoomId, replaced: Option<Session>, a: Action, rid: RoomId)
    requires WellFormed(s) && ExclusiveAt(s, rid, d)
    requires d in s.ops && s.ops[d] == JoinQueued(x, replaced) && x in s.actors
    requires OutcomeOf(s.actors[x].st, a).Refused? ==> Act(s.actors[x].st, a) == s.actors[x].st
    ensures ExclusiveAt(DoRunJoin(s, d, x, replaced, a), rid, d)
  {
    var s' := DoRunJoin(s, d, x, replaced, a);
    assert OpOk(s, d);
    if Enforces(s', rid, s.owner(d)) {
      EnforcedBefore(s, s', rid, s.owner(d));
    }
  }

  lemma RunJoinKeepsExclusive(s: State, d: ClientId, x: RoomId, replaced: Option<Session>, onLeave: seq<bool>,
                              onJoin: seq<bool>)
    requires WellFormed(s) && Exclusive(s)
    requires d in s.ops && s.ops[d] == JoinQueued(x, replaced) && x in s.actors
    ensures Exclusive(DoRunJoin(s, d, x, replaced, JoinAction(s, d, x, replaced, onLeave, onJoin)))
  {
    var a := JoinAction(s, d, x, replaced, onLeave, onJoin);
    var s' := DoRunJoin(s, d, x, replaced, a);
    JoinOutcome(s, d, x, replaced, onLeave, onJoin);
    RunActionAt(s, s', d, x, a);
    forall rid ensures ExclusiveAt(s', rid, d) {
      assert ExclusiveAt(s, rid, d);
      RunJoinAt(s, d, x, replaced, a, rid);
    }
  }

  /** An action run for client d in room x leaves every other client's pairs alone. */
  lemma RunActionAt(s: State, s': State, d: ClientId, x: RoomId, a: Action)
    requires WellFormed(s) && Exclusive(s) && x in s.actors && ((a.DoJoin? || a.DoReplace?) ==> a.c == d)
    requires s'.actors == SetRoom(s, x, Act(s.actors[x].st, a)).actors
    requires TablesKept(s, s') && s.spoiled <= s'.spoiled
    requires forall c :: c != d ==> (c in s'.ops <==> c in s.ops) && (c in s.ops ==> s'.ops[c] == s.ops[c])
    ensures forall rid, c :: c != d ==> ExclusiveAt(s', rid, c)
    ensures forall rid, c :: c != d || !(a.DoJoin? || a.DoReplace?) ==> (SeatedAt(s', rid, c) ==> SeatedAt(s, rid, c))
  {
    forall rid, c | c != d || !(a.DoJoin? || a.DoReplace?)
      ensures SeatedAt(s', rid, c) ==> SeatedAt(s, rid, c)
    {
      if SeatedAt(s', x, c) {
        ActSeatsOnlyItsClient(s.actors[x].st, a, c);
      }
    }
    forall rid, c | c != d ensures ExclusiveAt(s', rid, c) {
      if rid in s.actors {
        assert ExclusiveAt(s, rid, c) && (c in s.ops ==> OpOk(s, c));
        ExclusiveAtFrame(s, s', rid, c);
      }
    }
  }

  lemma RunLeaveKeepsExclusive(s: State, d: ClientId, x: RoomId, leaver: ClientId, onLeave: seq<bool>)
    requires WellFormed(s) && Exclusive(s)
    requires d in s.ops && s.ops[d] == LeaveQueued(x, leaver) && x in s.actors
    ensures Exclusive(DoRunLeave(s, d, x, leaver, onLeave))
  {
    var s' := DoRunLeave(s, d, x, leaver, onLeave);
    RunActionAt(s, s', d, x, DoLeave(leaver, onLeave));
    DropFrame(s.actors[x].st, leaver, onLeave);
    forall rid ensures ExclusiveAt(s', rid, d) {
      assert ExclusiveAt(s, rid, d);
      if Enforces(s', rid, s'.owner(d)) {
        EnforcedBefore(s, s', rid, s.owner(d));
      }
    }
  }

  lemma RunScheduleKeepsExclusive(s: State, d: ClientId, x: RoomId)
    requires WellFormed(s) && Exclusive(s)
    requires d in s.ops && s.ops[d] == ScheduleQueued(x) && x in s.actors
    ensures Exclusive(DoRunSchedule(s, d, x))
  {
    var s' := DoRunSchedule(s, d, x);
    RunActionAt(s, s', d, x, DoSchedule);
    forall rid ensures ExclusiveAt(s', rid, d) {
      assert ExclusiveAt(s, rid, d);
      if Enforces(s', rid, s'.owner(d)) {
        EnforcedBefore(s, s', rid, s.owner(d));
      }
    }
  }

  lemma RunClosureKeepsExclusive(s: State, d: ClientId, onLeave: seq<bool>, onJoin: seq<bool>)
    requires WellFormed(s) && Exclusive(s) && MoveEnabled(s, d, RunClosure(onLeave, onJoin))
    ensures Exclusive(DoRunClosure(s, d, onLeave, onJoin))
  {
    match s.ops[d]
    case JoinQueued(x, replaced) => RunJoinKeepsExclusive(s, d, x, replaced, onLeave, onJoin);
    case LeaveQueued(x, leaver) => RunLeaveKeepsExclusive(s, d, x, leaver, onLeave);
    case ScheduleQueued(x) => RunScheduleKeepsExclusive(s, d, x);
  }

  /** The rollback finds either no record of d's or one whose seat d does not hold. */
  lemma RollbackKeepsExclusive(s: State, d: ClientId)
    requires WellFormed(s) && Exclusive(s) && MoveEnabled(s, d, Resume) && s.ops[d].RollbackDue?
    ensures Exclusive(DoResume(s, d))
  {
    var s' := DoResume(s, d);
    assert OpOk(s, d);
    forall rid, c ensures ExclusiveAt(s', rid, c) {
      if Enforces(s', rid, s'.owner(c)) {
        EnforcedBefore(s, s', rid, s.owner(c));
        assert ExclusiveAt(s, rid, c);
        assert s'.actors == s.actors;
      }
    }
  }

  /** A resumption or abandonment that leaves rooms and records alone. */
  lemma OpMoveKeepsExclusive(s: State, s': State, d: ClientId)
    requires WellFormed(s) && Exclusive(s) && d in s.ops
    requires OnlyOp(s, s', d) && TablesKept(s, s') && s'.actors == s.actors
    requires Leaving(s, s.ops[d].rid, d) ==> s.ops[d].rid !in s.registered
    requires d in s'.ops ==> !s'.ops[d].JoinQueued? && !s'.ops[d].JoinRan?
    requires d in s'.ops && s'.ops[d].RollbackDue? ==>
               && s.ops[d].rid == s'.ops[d].rid
               && (s.ops[d].JoinQueued? || s.ops[d].JoinRan?)
               && ((s.ops[d].JoinRan? && s.ops[d].outcome.Refused?) || s'.ops[d].rid !in s.registered)
    ensures Exclusive(s')
  {
    forall rid, c ensures ExclusiveAt(s', rid, c) {
      assert ExclusiveAt(s, rid, c) && (c in s.ops ==> OpOk(s, c));
      if rid in s.actors && c != d {
        ExclusiveAtFrame(s, s', rid, c);
      } else if Enforces(s', rid, s'.owner(c)) {
        EnforcedBefore(s, s', rid, s.owner(c));
      }
    }
  }

  lemma ResumeKeepsExclusive(s: State, d: ClientId)
    requires WellFormed(s) && Exclusive(s) && MoveEnabled(s, d, Resume)
    ensures Exclusive(DoResume(s, d))
  {
    ResumeKeepsWellFormed(s, d);
    if s.ops[d].RollbackDue? {
      RollbackKeepsExclusive(s, d);
    } else {
      OpMoveKeepsExclusive(s, DoResume(s, d), d);
    }
  }

  lemma GiveUpKeepsExclusive(s: State, d: ClientId)
    requires WellFormed(s) && Exclusive(s) && MoveEnabled(s, d, GiveUp)
    ensures Exclusive(DoGiveUp(s, d))
  {
    assert RoomOk(s, s.ops[d].rid);
    OpMoveKeepsExclusive(s, DoGiveUp(s, d), d);
  }

  lemma MoveKeepsExclusive(s: State, c: ClientId, move: Move)
    requires WellFormed(s) && Exclusive(s) && MoveEnabled(s, c, move)
    ensures Exclusive(ApplyMove(s, c, move))
  {
    match move
    case BeginJoin(rid) => BeginJoinKeepsExclusive(s, c, rid);
    case BeginLeave(rid) => BeginLeaveKeepsExclusive(s, c, rid);
    case RunClosure(onLeave, onJoin) => RunClosureKeepsExclusive(s, c, onLeave, onJoin);
    case Resume => ResumeKeepsExclusive(s, c);
    case GiveUp => GiveUpKeepsExclusive(s, c);
  }

  lemma RemoveKeepsExclusive(s: State, x: RoomId, requested: bool)
    requires WellFormed(s) && Exclusive(s) && EventEnabled(s, x, Remove(requested))
    ensures Exclusive(DoRemove(s, x, requested))
  {
    var s' := DoRemove(s, x, requested);
    forall rid, c ensures ExclusiveAt(s', rid, c) {
      assert ExclusiveAt(s, rid, c) && (c in s.ops ==> OpOk(s, c));
      if rid in s.registered && rid != x {
        ExclusiveAtFrame(s, s', rid, c);
      }
    }
  }

  lemma CreateKeepsExclusive(s: State, x: RoomId, config: Config, keep: bool)
    requires WellFormed(s) && Exclusive(s) && EventEnabled(s, x, Create(config, keep))
    ensures Exclusive(ApplyEvent(s, x, Create(config, keep)))
  {
    var s' := ApplyEvent(s, x, Create(config, keep));
    forall rid, c ensures ExclusiveAt(s', rid, c) {
      assert ExclusiveAt(s, rid, c) && (c in s.ops ==> OpOk(s, c));
      if rid in s.actors {
        ExclusiveAtFrame(s, s', rid, c);
      }
    }
  }

  /** An event that changes one actor's state, seating nobody unless the room is unregistered. */
  lemma ActorEventKeepsExclusive(s: State, x: RoomId, actor: Actor)
    requires WellFormed(s) && Exclusive(s) && x in s.actors && actor.st.config == s.actors[x].st.config
    requires x in s.registered ==> actor.st.players.Keys <= s.actors[x].st.players.Keys
    ensures Exclusive(s.(actors := s.actors[x := actor]))
  {
    var s' := s.(actors := s.actors[x := actor]);
    forall rid, c ensures ExclusiveAt(s', rid, c) {
      assert ExclusiveAt(s, rid, c) && (c in s.ops ==> OpOk(s, c));
      if rid in s.registered {
        ExclusiveAtFrame(s, s', rid, c);
      }
    }
  }

  lemma EventKeepsExclusive(s: State, x: RoomId, event: Event)
    requires WellFormed(s) && Exclusive(s) && EventEnabled(s, x, event)
    ensures Exclusive(ApplyEvent(s, x, event))
  {
    match event
    case Create(config, keep) => CreateKeepsExclusive(s, x, config, keep);
    case Remove(requested) => RemoveKeepsExclusive(s, x, requested);
    case RunAction(a) =>
      assert RoomOk(s, x);
      ActorEventKeepsExclusive(s, x, s.actors[x].(st := Act(s.actors[x].st, a)));
    case _ =>
      ActorEventKeepsExclusive(s, x, ApplyEvent(s, x, event).actors[x]);
  }

  lemma StepKeepsExclusive(s: State, step: Step)
    requires WellFormed(s) && Exclusive(s)
    ensures Exclusive(Next(s, step))
  {
    match step
    case ByClient(c, move) =>
      if MoveEnabled(s, c, move) {
        MoveKeepsExclusive(s, c, move);
      }
    case OnRoom(rid, event) =>
      if EventEnabled(s, rid, event) {
        EventKeepsExclusive(s, rid, event);
      }
    case ShutdownAll =>
  }
}
