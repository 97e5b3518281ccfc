/**
 One seat per user and type in every interleaving, replacing rooms included: a seat, or a join on
 its way to one, is recorded, or its client is leaving, or a newcomer that took its record over is
 on its way to end it. The steps that can undo this are told exactly, from the state before.
 */
module RoomTakeover {
  import opened Base
  import opened RoomModel
  import opened SessionTable
  import opened RoomProtocol
  import opened RoomExclusivity

  /** A registered room of type t that keeps records. */
  ghost predicate Keeps(s: State, rid: RoomId, t: RoomType) {
    && rid in s.registered && rid in s.actors
    && s.actors[rid].st.config.typ == t && s.actors[rid].st.config.mode != Allow
  }

  /** Client c's join of rid has passed the manager and not reached the room. */
  ghost predicate Queued(s: State, rid: RoomId, c: ClientId) {
    c in s.ops && s.ops[c].JoinQueued? && s.ops[c].rid == rid
  }

  ghost predicate Holds(s: State, u: UserId, t: RoomType, x: Session) {
    Lookup(s.sessions, u, t) == Some(x)
  }

  /** Client d took the record of c's seat in rid over, and has still to swap it out or kick it. */
  ghost predicate TakenBy(s: State, d: ClientId, rid: RoomId, c: ClientId) {
    d in s.ops &&
    match s.ops[d]
    case JoinQueued(_, replaced) => replaced == Some(Session(rid, c))
    case JoinRan(x, replaced, outcome) => outcome.Seated? && x != rid && replaced == Some(Session(rid, c))
    case KickDue(x, kicked) => x == rid && kicked == c
    case LeaveQueued(x, leaver) => x == rid && leaver == c && d != c
    case _ => false
  }

  ghost predicate Taken(s: State, rid: RoomId, c: ClientId) {
    exists d :: TakenBy(s, d, rid, c)
  }

  ghost predicate Covered(s: State, u: UserId, t: RoomType, rid: RoomId, c: ClientId) {
    Holds(s, u, t, Session(rid, c)) || Leaving(s, rid, c) || Taken(s, rid, c)
  }

  /** A seat of user u in a room of type t, or a queued join that is to become one. */
  ghost predicate Claims(s: State, u: UserId, t: RoomType, rid: RoomId, c: ClientId) {
    Keeps(s, rid, t) && s.owner(c) == u && (SeatedAt(s, rid, c) || Queued(s, rid, c))
  }

  ghost predicate ClaimOk(s: State, u: UserId, t: RoomType, rid: RoomId, c: ClientId) {
    Claims(s, u, t, rid, c) ==> Covered(s, u, t, rid, c)
  }

  /** What a join in flight knows: it did not take its own seat over, and any record of its client is its own. */
  ghost predicate JoinerOk(s: State, d: ClientId)
    requires d in s.ops
  {
    var pc := s.ops[d];
    && ((pc.JoinQueued? || pc.JoinRan?) && pc.replaced.Some? ==> pc.replaced.value != Session(pc.rid, d))
    && ((pc.JoinQueued? || pc.JoinRan? || pc.RollbackDue?) && pc.rid in s.actors
        && s.actors[pc.rid].st.config.mode != Allow ==>
          var current := Lookup(s.sessions, s.owner(d), s.actors[pc.rid].st.config.typ);
          current.Some? && current.value.client == d ==> current.value.room == pc.rid)
  }

  ghost predicate JoinersOk(s: State) {
    forall d :: d in s.ops ==> JoinerOk(s, d)
  }

  ghost predicate AllCovered(s: State, u: UserId, t: RoomType) {
    forall rid, c :: ClaimOk(s, u, t, rid, c)
  }

  // ---------------------------------------------------------------- what uncovers a claim

  ghost predicate TakenByOther(s: State, d: ClientId, rid: RoomId, c: ClientId) {
    exists e :: e != d && TakenBy(s, e, rid, c)
  }

  /** Client d's takeover is all that covers this claim. */
  ghost predicate OnlyTaker(s: State, d: ClientId, u: UserId, t: RoomType, rid: RoomId, c: ClientId) {
    && Claims(s, u, t, rid, c) && TakenBy(s, d, rid, c)
    && !Holds(s, u, t, Session(rid, c)) && !Leaving(s, rid, c) && !TakenByOther(s, d, rid, c)
  }

  /** The record is all that covers this claim. */
  ghost predicate OnlyRecorded(s: State, u: UserId, t: RoomType, rid: RoomId, c: ClientId) {
    && Claims(s, u, t, rid, c) && Holds(s, u, t, Session(rid, c))
    && !Leaving(s, rid, c) && !Taken(s, rid, c)
  }

  /**
   The moves of client d that leave this claim of user u without cover. Where d is its only taker:
   d's join is refused, or abandoned because its room went away, or d's swap or kick runs while
   the claimant's own join of the room is still queued. Where only the record covers it: d is the
   claimant, sits in the room, and rolls a refused rejoin back; or d's join of a room in an
   undeclared mode is recorded over it.

   OnlyTaker and OnlyRecorded exclude other cover, and are the same in every branch. What is left of
   each branch is the manager's own failing test: the switch over the mode that lets an undeclared one
   fall through to the record, the error of the join closure, the order of a swap or kick and the
   claimant's own join, and a rollback that compares the client and not whether it is seated.
   */
  ghost predicate Uncovers(s: State, d: ClientId, move: Move, u: UserId, t: RoomType, rid: RoomId, c: ClientId)
    requires MoveEnabled(s, d, move)
  {
    match move
    case BeginJoin(x) =>
      var config := s.actors[x].st.config;
      config.mode.Other? && config.typ == t && s.owner(d) == u && Session(x, d) != Session(rid, c)
      && OnlyRecorded(s, u, t, rid, c)
    case BeginLeave(_) => false
    case RunClosure(onLeave, onJoin) =>
      (match s.ops[d]
       case JoinQueued(x, replaced) =>
         OnlyTaker(s, d, u, t, rid, c)
         && (OutcomeOf(s.actors[x].st, JoinAction(s, d, x, replaced, onLeave, onJoin)).Refused?
             || (rid == x && Queued(s, rid, c)))
       case LeaveQueued(_, _) => OnlyTaker(s, d, u, t, rid, c) && Queued(s, rid, c)
       case _ => false)
    case Resume => s.ops[d].RollbackDue? && s.ops[d].rid == rid && c == d && OnlyRecorded(s, u, t, rid, c)
    case GiveUp => OnlyTaker(s, d, u, t, rid, c)
  }

  ghost predicate StepUncovers(s: State, step: Step, u: UserId, t: RoomType) {
    step.ByClient? && MoveEnabled(s, step.c, step.move)
    && exists rid, c :: Uncovers(s, step.c, step.move, u, t, rid, c)
  }

  // ---------------------------------------------------------------- steps

  /** Who takes a seat over once only client d's request has changed. */
  lemma TakersAfter(s: State, s': State, d: ClientId, rid: RoomId, c: ClientId)
    requires forall e :: e != d ==> (e in s'.ops <==> e in s.ops) && (e in s.ops ==> s'.ops[e] == s.ops[e])
    ensures Taken(s, rid, c) <==> TakenBy(s, d, rid, c) || TakenByOther(s, d, rid, c)
    ensures Taken(s', rid, c) <==> TakenBy(s', d, rid, c) || TakenByOther(s, d, rid, c)
  {
    forall e ensures e != d ==> (TakenBy(s', e, rid, c) <==> TakenBy(s, e, rid, c)) {}
    if TakenByOther(s, d, rid, c) {
      var e :| e != d && TakenBy(s, e, rid, c);
      assert TakenBy(s', e, rid, c);
    }
    if e :| TakenBy(s', e, rid, c) {
      assert e != d ==> TakenBy(s, e, rid, c);
    }
  }

  lemma BeginJoinExactly(s: State, d: ClientId, x: RoomId, u: UserId, t: RoomType, rid: RoomId, c: ClientId)
    requires WellFormed(s) && ClaimOk(s, u, t, rid, c) && MoveEnabled(s, d, BeginJoin(x))
    ensures ClaimOk(DoBeginJoin(s, d, x), u, t, rid, c) <==> !Uncovers(s, d, BeginJoin(x), u, t, rid, c)
  {
    TakersAfter(s, DoBeginJoin(s, d, x), d, rid, c);
  }

  lemma BeginLeaveExactly(s: State, d: ClientId, x: RoomId, u: UserId, t: RoomType, rid: RoomId, c: ClientId)
    requires ClaimOk(s, u, t, rid, c) && MoveEnabled(s, d, BeginLeave(x))
    ensures ClaimOk(DoBeginLeave(s, d, x), u, t, rid, c)
  {
    TakersAfter(s, DoBeginLeave(s, d, x), d, rid, c);
  }

  /** The rollback finds no record of d's, or the one of the join it rolls back. */
  lemma RecordsAfterRollback(s: State, d: ClientId, u: UserId, t: RoomType, rid: RoomId, c: ClientId)
    requires WellFormed(s) && JoinersOk(s) && MoveEnabled(s, d, Resume) && s.ops[d].RollbackDue?
    ensures var x := s.ops[d].rid;
            Holds(DoResume(s, d), u, t, Session(rid, c)) <==>
            && Holds(s, u, t, Session(rid, c))
            && !(c == d && rid == x && s.owner(d) == u && s.actors[x].st.config.typ == t)
  {
    assert OpOk(s, d) && JoinerOk(s, d);
  }

  lemma RollbackExactly(s: State, d: ClientId, u: UserId, t: RoomType, rid: RoomId, c: ClientId)
    requires WellFormed(s) && JoinersOk(s) && ClaimOk(s, u, t, rid, c)
    requires MoveEnabled(s, d, Resume) && s.ops[d].RollbackDue?
    ensures ClaimOk(DoResume(s, d), u, t, rid, c) <==> !Uncovers(s, d, Resume, u, t, rid, c)
  {
    var s' := DoResume(s, d);
    RecordsAfterRollback(s, d, u, t, rid, c);
    TakersAfter(s, s', d, rid, c);
    assert s'.actors == s.actors && s'.registered == s.registered;
    assert Claims(s', u, t, rid, c) <==> Claims(s, u, t, rid, c);
    assert !TakenBy(s, d, rid, c) && !TakenBy(s', d, rid, c);
  }

  /** The outcome of a join is acted on: a taker goes on to kick. */
  lemma ResumeJoinCovers(s: State, d: ClientId, u: UserId, t: RoomType, rid: RoomId, c: ClientId)
    requires WellFormed(s) && ClaimOk(s, u, t, rid, c) && MoveEnabled(s, d, Resume) && s.ops[d].JoinRan?
    ensures ClaimOk(DoResume(s, d), u, t, rid, c)
  {
    ResumeKeepsWellFormed(s, d);
    assert OpOk(s, d);
    TakersAfter(s, DoResume(s, d), d, rid, c);
    assert TakenBy(s, d, rid, c) ==> TakenBy(DoResume(s, d), d, rid, c);
  }

  /** A kick is taken to the room, or its room is gone. */
  lemma ResumeLeaveCovers(s: State, d: ClientId, u: UserId, t: RoomType, rid: RoomId, c: ClientId)
    requires ClaimOk(s, u, t, rid, c) && MoveEnabled(s, d, Resume) && (s.ops[d].KickDue? || s.ops[d].LeaveRan?)
    ensures ClaimOk(DoResume(s, d), u, t, rid, c)
  {
    TakersAfter(s, DoResume(s, d), d, rid, c);
  }

  lemma ResumeExactly(s: State, d: ClientId, u: UserId, t: RoomType, rid: RoomId, c: ClientId)
    requires WellFormed(s) && JoinersOk(s) && ClaimOk(s, u, t, rid, c) && MoveEnabled(s, d, Resume)
    ensures ClaimOk(DoResume(s, d), u, t, rid, c) <==> !Uncovers(s, d, Resume, u, t, rid, c)
  {
    if s.ops[d].RollbackDue? {
      RollbackExactly(s, d, u, t, rid, c);
    } else if s.ops[d].JoinRan? {
      ResumeJoinCovers(s, d, u, t, rid, c);
    } else {
      ResumeLeaveCovers(s, d, u, t, rid, c);
    }
  }

  /** Giving up moves no request but one's own, and touches neither the rooms nor the manager's maps. */
  lemma GiveUpOps(s: State, d: ClientId)
    requires MoveEnabled(s, d, GiveUp)
    ensures var s' := DoGiveUp(s, d);
            && s'.registered == s.registered && s'.sessions == s.sessions && s'.actors == s.actors
            && s'.owner == s.owner
            && (d in s'.ops ==> s'.ops[d] == RollbackDue(s.ops[d].rid))
            && (forall e :: e != d ==> (e in s'.ops <==> e in s.ops) && (e in s.ops ==> s'.ops[e] == s.ops[e]))
  {}

  lemma GiveUpExactly(s: State, d: ClientId, u: UserId, t: RoomType, rid: RoomId, c: ClientId)
    requires WellFormed(s) && ClaimOk(s, u, t, rid, c) && MoveEnabled(s, d, GiveUp)
    ensures ClaimOk(DoGiveUp(s, d), u, t, rid, c) <==> !Uncovers(s, d, GiveUp, u, t, rid, c)
  {
    assert RoomOk(s, s.ops[d].rid);
    GiveUpOps(s, d);
    TakersAfter(s, DoGiveUp(s, d), d, rid, c);
  }

  // ---------------------------------------------------------------- closures

  lemma SeatsAfterPlainJoin(r: RoomState, d: ClientId, u: UserId, onJoin: seq<bool>, c: ClientId)
    ensures var a := DoJoin(d, u, onJoin);
            && (c != d ==> (c in Act(r, a).players <==> c in r.players))
            && (OutcomeOf(r, a).Seated? ==> d in Act(r, a).players)
            && (OutcomeOf(r, a).Refused? ==> Act(r, a) == r)
  {
    SeatFrame(r, d, u, onJoin);
  }

  lemma SeatsAfterSwap(r: RoomState, prev: ClientId, d: ClientId, u: UserId, onLeave: seq<bool>, onJoin: seq<bool>,
                       c: ClientId)
    requires WithinCapacity(r)
    ensures var a := DoReplace(prev, d, u, onLeave, onJoin);
            && (c != d ==> (c in Act(r, a).players <==> c in r.players && !(c == prev && OutcomeOf(r, a).Seated?)))
            && (OutcomeOf(r, a).Seated? ==> d in Act(r, a).players)
            && (OutcomeOf(r, a).Refused? ==> Act(r, a) == r)
  {
    ReplaceAllOrNothing(r, prev, d, u, onLeave, onJoin);
  }

  /** Who sits in a room after a join closure, other than its client. */
  lemma SeatsAfterJoin(s: State, d: ClientId, x: RoomId, replaced: Option<Session>, onLeave: seq<bool>,
                       onJoin: seq<bool>, c: ClientId)
    requires x in s.actors && WithinCapacity(s.actors[x].st)
    ensures var r := s.actors[x].st;
            var a := JoinAction(s, d, x, replaced, onLeave, onJoin);
            var swapped := replaced == Some(Session(x, c)) && OutcomeOf(r, a).Seated?;
            && (c != d ==> (c in Act(r, a).players <==> c in r.players && !swapped))
            && (OutcomeOf(r, a).Seated? ==> d in Act(r, a).players)
            && (OutcomeOf(r, a).Refused? ==> Act(r, a) == r)
  {
    var r := s.actors[x].st;
    if replaced.Some? && replaced.value.room == x {
      SeatsAfterSwap(r, replaced.value.client, d, s.owner(d), onLeave, onJoin, c);
    } else {
      SeatsAfterPlainJoin(r, d, s.owner(d), onJoin, c);
    }
  }

  /** Which of the user's claims a join closure leaves. */
  lemma ClaimsAfterJoin(s: State, d: ClientId, x: RoomId, replaced: Option<Session>, onLeave: seq<bool>,
                        onJoin: seq<bool>, u: UserId, t: RoomType, rid: RoomId, c: ClientId)
    requires WellFormed(s) && x in s.actors && d in s.ops && s.ops[d] == JoinQueued(x, replaced)
    ensures var a := JoinAction(s, d, x, replaced, onLeave, onJoin);
            var s' := DoRunJoin(s, d, x, replaced, a);
            var swapped := rid == x && OutcomeOf(s.actors[x].st, a).Seated? && replaced == Some(Session(x, c));
            && (c != d || rid != x ==>
                  (Claims(s', u, t, rid, c) <==> Claims(s, u, t, rid, c) && (swapped ==> Queued(s, rid, c))))
            && (Claims(s', u, t, x, d) ==> Claims(s, u, t, x, d))
  {
    assert RoomOk(s, x);
    SeatsAfterJoin(s, d, x, replaced, onLeave, onJoin, c);
    var a := JoinAction(s, d, x, replaced, onLeave, onJoin);
    var s' := DoRunJoin(s, d, x, replaced, a);
    assert rid != x ==> (SeatedAt(s', rid, c) <==> SeatedAt(s, rid, c));
    assert c != d ==> (Queued(s', rid, c) <==> Queued(s, rid, c));
  }

  /** How it leaves them covered. */
  lemma CoverAfterJoin(s: State, d: ClientId, x: RoomId, replaced: Option<Session>, a: Action,
                       u: UserId, t: RoomType, rid: RoomId, c: ClientId)
    requires x in s.actors && d in s.ops && s.ops[d] == JoinQueued(x, replaced)
    ensures var s' := DoRunJoin(s, d, x, replaced, a);
            && (Holds(s', u, t, Session(rid, c)) <==> Holds(s, u, t, Session(rid, c)))
            && (Leaving(s', rid, c) <==> Leaving(s, rid, c))
            && (TakenBy(s', d, rid, c) <==>
                  OutcomeOf(s.actors[x].st, a).Seated? && rid != x && replaced == Some(Session(rid, c)))
  {}

  lemma RunJoinExactly(s: State, d: ClientId, x: RoomId, replaced: Option<Session>, onLeave: seq<bool>,
                       onJoin: seq<bool>, u: UserId, t: RoomType, rid: RoomId, c: ClientId)
    requires WellFormed(s) && JoinersOk(s) && ClaimOk(s, u, t, rid, c)
    requires x in s.actors && d in s.ops && s.ops[d] == JoinQueued(x, replaced)
    requires MoveEnabled(s, d, RunClosure(onLeave, onJoin))
    ensures ClaimOk(DoRunJoin(s, d, x, replaced, JoinAction(s, d, x, replaced, onLeave, onJoin)), u, t, rid, c) <==>
            !Uncovers(s, d, RunClosure(onLeave, onJoin), u, t, rid, c)
  {
    assert JoinerOk(s, d);
    var a := JoinAction(s, d, x, replaced, onLeave, onJoin);
    ClaimsAfterJoin(s, d, x, replaced, onLeave, onJoin, u, t, rid, c);
    CoverAfterJoin(s, d, x, replaced, a, u, t, rid, c);
    TakersAfter(s, DoRunJoin(s, d, x, replaced, a), d, rid, c);
  }

  lemma SeatsAfterLeave(s: State, d: ClientId, x: RoomId, leaver: ClientId, onLeave: seq<bool>,
                        t: RoomType, rid: RoomId, c: ClientId)
    requires x in s.actors && d in s.ops && s.ops[d] == LeaveQueued(x, leaver)
    ensures var s' := DoRunLeave(s, d, x, leaver, onLeave);
            && (Keeps(s', rid, t) <==> Keeps(s, rid, t))
            && (SeatedAt(s', rid, c) <==> SeatedAt(s, rid, c) && !(rid == x && c == leaver))
            && (Queued(s', rid, c) <==> Queued(s, rid, c))
  {
    DropFrame(s.actors[x].st, leaver, onLeave);
  }

  /** Which of the user's claims a leave closure leaves. */
  lemma ClaimsAfterLeave(s: State, d: ClientId, x: RoomId, leaver: ClientId, onLeave: seq<bool>,
                         u: UserId, t: RoomType, rid: RoomId, c: ClientId)
    requires x in s.actors && d in s.ops && s.ops[d] == LeaveQueued(x, leaver)
    ensures Claims(DoRunLeave(s, d, x, leaver, onLeave), u, t, rid, c) <==>
            Claims(s, u, t, rid, c) && (rid == x && c == leaver ==> Queued(s, rid, c))
  {
    SeatsAfterLeave(s, d, x, leaver, onLeave, t, rid, c);
  }

  lemma CoverAfterLeave(s: State, d: ClientId, x: RoomId, leaver: ClientId, onLeave: seq<bool>,
                        u: UserId, t: RoomType, rid: RoomId, c: ClientId)
    requires x in s.actors && d in s.ops && s.ops[d] == LeaveQueued(x, leaver)
    ensures var s' := DoRunLeave(s, d, x, leaver, onLeave);
            && (Holds(s', u, t, Session(rid, c)) <==> Holds(s, u, t, Session(rid, c)))
            && (Leaving(s', rid, c) <==> Leaving(s, rid, c) && c != d)
            && !TakenBy(s', d, rid, c)
  {}

  lemma RunLeaveExactly(s: State, d: ClientId, x: RoomId, leaver: ClientId, onLeave: seq<bool>, onJoin: seq<bool>,
                        u: UserId, t: RoomType, rid: RoomId, c: ClientId)
    requires ClaimOk(s, u, t, rid, c)
    requires MoveEnabled(s, d, RunClosure(onLeave, onJoin)) && s.ops[d] == LeaveQueued(x, leaver)
    ensures ClaimOk(DoRunLeave(s, d, x, leaver, onLeave), u, t, rid, c) <==>
            !Uncovers(s, d, RunClosure(onLeave, onJoin), u, t, rid, c)
  {
    ClaimsAfterLeave(s, d, x, leaver, onLeave, u, t, rid, c);
    CoverAfterLeave(s, d, x, leaver, onLeave, u, t, rid, c);
    TakersAfter(s, DoRunLeave(s, d, x, leaver, onLeave), d, rid, c);
  }

  lemma RunScheduleExactly(s: State, d: ClientId, x: RoomId, onLeave: seq<bool>, onJoin: seq<bool>,
                           u: UserId, t: RoomType, rid: RoomId, c: ClientId)
    requires ClaimOk(s, u, t, rid, c) && MoveEnabled(s, d, RunClosure(onLeave, onJoin)) && s.ops[d] == ScheduleQueued(x)
    ensures ClaimOk(DoRunSchedule(s, d, x), u, t, rid, c)
  {
    TakersAfter(s, DoRunSchedule(s, d, x), d, rid, c);
  }

  lemma RunClosureExactly(s: State, d: ClientId, onLeave: seq<bool>, onJoin: seq<bool>,
                          u: UserId, t: RoomType, rid: RoomId, c: ClientId)
    requires WellFormed(s) && JoinersOk(s) && ClaimOk(s, u, t, rid, c) && MoveEnabled(s, d, RunClosure(onLeave, onJoin))
    ensures ClaimOk(DoRunClosure(s, d, onLeave, onJoin), u, t, rid, c) <==>
            !Uncovers(s, d, RunClosure(onLeave, onJoin), u, t, rid, c)
  {
    match s.ops[d]
    case JoinQueued(x, replaced) => RunJoinExactly(s, d, x, replaced, onLeave, onJoin, u, t, rid, c);
    case LeaveQueued(x, leaver) => RunLeaveExactly(s, d, x, leaver, onLeave, onJoin, u, t, rid, c);
    case ScheduleQueued(x) => RunScheduleExactly(s, d, x, onLeave, onJoin, u, t, rid, c);
  }

  lemma MoveExactly(s: State, d: ClientId, move: Move, u: UserId, t: RoomType, rid: RoomId, c: ClientId)
    requires WellFormed(s) && JoinersOk(s) && ClaimOk(s, u, t, rid, c) && MoveEnabled(s, d, move)
    ensures ClaimOk(ApplyMove(s, d, move), u, t, rid, c) <==> !Uncovers(s, d, move, u, t, rid, c)
  {
    match move
    case BeginJoin(x) => BeginJoinExactly(s, d, x, u, t, rid, c);
    case BeginLeave(x) => BeginLeaveExactly(s, d, x, u, t, rid, c);
    case RunClosure(onLeave, onJoin) => RunClosureExactly(s, d, onLeave, onJoin, u, t, rid, c);
    case Resume => ResumeExactly(s, d, u, t, rid, c);
    case GiveUp => GiveUpExactly(s, d, u, t, rid, c);
  }

  // ---------------------------------------------------------------- room events

  /** Rooms that stay registered get no new player and keep their records, and no request moves. */
  ghost predicate QuietEvent(s: State, s': State) {
    && ConfigsKept(s, s') && s'.ops == s.ops
    && (forall rid, c :: rid in s'.registered && SeatedAt(s', rid, c) ==> rid in s.registered && SeatedAt(s, rid, c))
    && (forall rid :: rid in s'.registered && rid in s.actors ==> rid in s.registered)
    && (forall v, w, x :: Holds(s', v, w, x) ==> Holds(s, v, w, x))
    && (forall v, w, x :: Holds(s, v, w, x) && x.room in s'.registered ==> Holds(s', v, w, x))
  }

  lemma QuietKeepsClaim(s: State, s': State, u: UserId, t: RoomType, rid: RoomId, c: ClientId)
    requires WellFormed(s) && ClaimOk(s, u, t, rid, c) && QuietEvent(s, s')
    ensures ClaimOk(s', u, t, rid, c)
  {
    assert c in s.ops ==> OpOk(s, c);
    if Claims(s', u, t, rid, c) && Taken(s, rid, c) {
      var e :| TakenBy(s, e, rid, c);
      assert TakenBy(s', e, rid, c);
    }
  }

  lemma QuietKeepsJoiners(s: State, s': State)
    requires WellFormed(s) && JoinersOk(s) && QuietEvent(s, s')
    ensures JoinersOk(s')
  {
    forall e | e in s'.ops ensures JoinerOk(s', e) {
      assert JoinerOk(s, e) && OpOk(s, e);
      if s.ops[e].rid in s.actors {
        var w := s.actors[s.ops[e].rid].st.config.typ;
        var current := Lookup(s'.sessions, s.owner(e), w);
        if current.Some? {
          assert Holds(s', s.owner(e), w, current.value);
          assert Holds(s, s.owner(e), w, current.value);
        }
      }
    }
  }

  /** An event inside one actor: only one that is no longer registered may still seat somebody. */
  lemma ActorEventIsQuiet(s: State, x: RoomId, actor: Actor)
    requires WellFormed(s) && x in s.actors && actor.st.config == s.actors[x].st.config
    requires x in s.registered ==> actor.st.players == s.actors[x].st.players
    ensures QuietEvent(s, s.(actors := s.actors[x := actor]))
  {}

  lemma RemoveIsQuiet(s: State, x: RoomId, requested: bool)
    requires EventEnabled(s, x, Remove(requested))
    ensures QuietEvent(s, DoRemove(s, x, requested))
  {}

  /** A new room is empty, and no record names it. */
  lemma CreateIsQuiet(s: State, x: RoomId, config: Config, keep: bool)
    requires WellFormed(s) && x !in s.actors
    ensures QuietEvent(s, ApplyEvent(s, x, Create(config, keep)))
  {}

  lemma EventIsQuiet(s: State, x: RoomId, event: Event)
    requires WellFormed(s) && EventEnabled(s, x, event)
    ensures QuietEvent(s, ApplyEvent(s, x, event))
  {
    match event
    case Create(config, keep) => CreateIsQuiet(s, x, config, keep);
    case Remove(requested) => RemoveIsQuiet(s, x, requested);
    case RunAction(a) =>
      assert RoomOk(s, x);
      ActorEventIsQuiet(s, x, s.actors[x].(st := Act(s.actors[x].st, a)));
    case _ => ActorEventIsQuiet(s, x, ApplyEvent(s, x, event).actors[x]);
  }

  // ---------------------------------------------------------------- joins in flight

  /** Only client d's request or its own record changed. */
  lemma JoinersFrame(s: State, s': State, d: ClientId)
    requires JoinersOk(s) && WellFormed(s) && ConfigsKept(s, s')
    requires forall e :: e != d ==> (e in s'.ops <==> e in s.ops) && (e in s.ops ==> s'.ops[e] == s.ops[e])
    requires forall v, w, x :: Holds(s', v, w, x) ==> Holds(s, v, w, x) || x.client == d
    requires d in s'.ops ==> JoinerOk(s', d)
    ensures JoinersOk(s')
  {
    forall e | e in s'.ops ensures JoinerOk(s', e) {
      if e != d {
        assert JoinerOk(s, e) && OpOk(s, e);
        if s.ops[e].rid in s.actors {
          var w := s.actors[s.ops[e].rid].st.config.typ;
          var current := Lookup(s'.sessions, s.owner(e), w);
          if current.Some? {
            assert Holds(s', s.owner(e), w, current.value);
          }
        }
      }
    }
  }

  lemma BeginJoinKeepsJoiners(s: State, d: ClientId, x: RoomId)
    requires WellFormed(s) && JoinersOk(s) && d !in s.ops && x in s.actors
    ensures JoinersOk(DoBeginJoin(s, d, x))
  {
    JoinersFrame(s, DoBeginJoin(s, d, x), d);
  }

  lemma BeginLeaveKeepsJoiners(s: State, d: ClientId, x: RoomId)
    requires WellFormed(s) && JoinersOk(s) && d !in s.ops && x in s.actors
    ensures JoinersOk(DoBeginLeave(s, d, x))
  {
    JoinersFrame(s, DoBeginLeave(s, d, x), d);
  }

  lemma RunClosureKeepsJoiners(s: State, d: ClientId, onLeave: seq<bool>, onJoin: seq<bool>)
    requires WellFormed(s) && JoinersOk(s) && MoveEnabled(s, d, RunClosure(onLeave, onJoin))
    ensures JoinersOk(DoRunClosure(s, d, onLeave, onJoin))
  {
    assert JoinerOk(s, d) && OpOk(s, d);
    var s' := DoRunClosure(s, d, onLeave, onJoin);
    match s.ops[d]
    case JoinQueued(x, replaced) => JoinersFrame(s, s', d);
    case LeaveQueued(_, _) => JoinersFrame(s, s', d);
    case ScheduleQueued(_) => JoinersFrame(s, s', d);
  }

  lemma ResumeKeepsJoiners(s: State, d: ClientId)
    requires WellFormed(s) && JoinersOk(s) && MoveEnabled(s, d, Resume)
    ensures JoinersOk(DoResume(s, d))
  {
    assert JoinerOk(s, d) && OpOk(s, d);
    ResumeKeepsWellFormed(s, d);
    JoinersFrame(s, DoResume(s, d), d);
  }

  lemma MoveKeepsJoiners(s: State, d: ClientId, move: Move)
    requires WellFormed(s) && JoinersOk(s) && MoveEnabled(s, d, move)
    ensures JoinersOk(ApplyMove(s, d, move))
  {
    match move
    case BeginJoin(x) => BeginJoinKeepsJoiners(s, d, x);
    case BeginLeave(x) => BeginLeaveKeepsJoiners(s, d, x);
    case RunClosure(onLeave, onJoin) => RunClosureKeepsJoiners(s, d, onLeave, onJoin);
    case Resume => ResumeKeepsJoiners(s, d);
    case GiveUp =>
      assert JoinerOk(s, d) && OpOk(s, d);
      JoinersFrame(s, DoGiveUp(s, d), d);
  }

  lemma StepKeepsJoiners(s: State, step: Step)
    requires WellFormed(s) && JoinersOk(s)
    ensures JoinersOk(Next(s, step))
  {
    match step
    case ByClient(c, move) =>
      if MoveEnabled(s, c, move) {
        MoveKeepsJoiners(s, c, move);
      }
    case OnRoom(rid, event) =>
      if EventEnabled(s, rid, event) {
        EventIsQuiet(s, rid, event);
        QuietKeepsJoiners(s, Next(s, step));
      }
    case ShutdownAll => QuietKeepsJoiners(s, Next(s, step));
  }

  // ---------------------------------------------------------------- over whole runs

  lemma StepClaimExactly(s: State, step: Step, u: UserId, t: RoomType, rid: RoomId, c: ClientId)
    requires WellFormed(s) && JoinersOk(s) && ClaimOk(s, u, t, rid, c)
    ensures ClaimOk(Next(s, step), u, t, rid, c) <==>
            !(step.ByClient? && MoveEnabled(s, step.c, step.move) && Uncovers(s, step.c, step.move, u, t, rid, c))
  {
    match step
    case ByClient(d, move) =>
      if MoveEnabled(s, d, move) {
        MoveExactly(s, d, move, u, t, rid, c);
      }
    case OnRoom(x, event) =>
      if EventEnabled(s, x, event) {
        EventIsQuiet(s, x, event);
        QuietKeepsClaim(s, Next(s, step), u, t, rid, c);
      }
    case ShutdownAll => QuietKeepsClaim(s, Next(s, step), u, t, rid, c);
  }

  /** Where all claims of a user are covered, a step leaves one without cover exactly if it is one of those moves. */
  lemma StepUncoversExactly(s: State, step: Step, u: UserId, t: RoomType)
    requires WellFormed(s) && JoinersOk(s) && AllCovered(s, u, t)
    ensures AllCovered(Next(s, step), u, t) <==> !StepUncovers(s, step, u, t)
  {
    forall rid, c
      ensures ClaimOk(Next(s, step), u, t, rid, c) <==>
              !(step.ByClient? && MoveEnabled(s, step.c, step.move) && Uncovers(s, step.c, step.move, u, t, rid, c))
    {
      assert ClaimOk(s, u, t, rid, c);
      StepClaimExactly(s, step, u, t, rid, c);
    }
    if StepUncovers(s, step, u, t) {
      var rid, c :| Uncovers(s, step.c, step.move, u, t, rid, c);
      assert !ClaimOk(Next(s, step), u, t, rid, c);
    }
    if !AllCovered(Next(s, step), u, t) {
      var rid, c :| !ClaimOk(Next(s, step), u, t, rid, c);
    }
  }

  /** All claims of the user are covered in every state of the run. */
  ghost predicate AlwaysCovered(s: State, steps: seq<Step>, u: UserId, t: RoomType)
    decreases |steps|
  {
    AllCovered(s, u, t) && (steps == [] || AlwaysCovered(Next(s, steps[0]), steps[1..], u, t))
  }

  /** No step of the run is one of the uncovering moves. */
  ghost predicate NeverUncovers(s: State, steps: seq<Step>, u: UserId, t: RoomType)
    decreases |steps|
  {
    steps == [] || (!StepUncovers(s, steps[0], u, t) && NeverUncovers(Next(s, steps[0]), steps[1..], u, t))
  }

  lemma {:induction false} RunUncoversExactly(s: State, steps: seq<Step>, u: UserId, t: RoomType)
    requires WellFormed(s) && JoinersOk(s) && AllCovered(s, u, t)
    ensures AlwaysCovered(s, steps, u, t) <==> NeverUncovers(s, steps, u, t)
    ensures NeverUncovers(s, steps, u, t) ==> AllCovered(Exec(s, steps), u, t) && WellFormed(Exec(s, steps))
    decreases |steps|
  {
    if steps == [] {
    } else {
      StepKeepsWellFormed(s, steps[0]);
      StepKeepsJoiners(s, steps[0]);
      StepUncoversExactly(s, steps[0], u, t);
      if AllCovered(Next(s, steps[0]), u, t) {
        RunUncoversExactly(Next(s, steps[0]), steps[1..], u, t);
      }
    }
  }

  /** A seat of user u in a registered room, that neither its client nor a newcomer is about to end. */
  ghost predicate Lasting(s: State, rid: RoomId, c: ClientId, u: UserId) {
    Settled(s, rid, c, u) && !Taken(s, rid, c)
  }

  /**
   In every interleaving, each seat of the user in rooms of the type that keep records, and each
   queued join of one, stays recorded, about to be left or about to be ended by a newcomer, for
   the whole run, if and only if no step of the run is one of the uncovering moves.
   */
  lemma CoveredExactly(owner: ClientId -> UserId, steps: seq<Step>, u: UserId, t: RoomType)
    ensures AlwaysCovered(Init(owner), steps, u, t) <==> NeverUncovers(Init(owner), steps, u, t)
  {
    RunUncoversExactly(Init(owner), steps, u, t);
  }

  /**
   One seat per user and type, replacing rooms included: after every such run the user holds at
   most one lasting seat in the rooms of the type that keep records, and the record names it.
   */
  lemma OneLastingSeat(owner: ClientId -> UserId, steps: seq<Step>, u: UserId, t: RoomType,
                       rid1: RoomId, c1: ClientId, rid2: RoomId, c2: ClientId)
    requires NeverUncovers(Init(owner), steps, u, t)
    requires var s := Exec(Init(owner), steps);
             && Keeps(s, rid1, t) && Keeps(s, rid2, t)
             && Lasting(s, rid1, c1, u) && Lasting(s, rid2, c2, u)
    ensures rid1 == rid2 && c1 == c2
    ensures Lookup(Exec(Init(owner), steps).sessions, u, t) == Some(Session(rid1, c1))
  {
    var s := Exec(Init(owner), steps);
    RunUncoversExactly(Init(owner), steps, u, t);
    assert RoomOk(s, rid1) && RoomOk(s, rid2);
    assert ClaimOk(s, u, t, rid1, c1) && ClaimOk(s, u, t, rid2, c2);
  }
}
