/**
 Rooms announce joins and leaves outside the actor, so the announcements of overlapping requests
 come in any order. What a listener of one room makes of them: exactly when it knows the players, and
 exactly which announcements bring it out of order.
 */
module Announcements {
  import opened Base
  import opened RoomModel
  import opened SessionTable
  import opened RoomProtocol
  import opened RoomSafety
  import opened News
  import RoomRemoval
  import RoomRuns
  import SoloRuns

  // ---------------------------------------------------------------- the last word about a client

  /** The notices about one client, in order. */
  function About(ns: seq<Notice>, c: ClientId): (mine: seq<Notice>) {
    if ns == [] then []
    else About(ns[..|ns| - 1], c) + if ns[|ns| - 1].client == c then [ns[|ns| - 1]] else []
  }

  lemma AboutSnoc(ns: seq<Notice>, n: Notice, c: ClientId)
    ensures About(ns + [n], c) == About(ns, c) + if n.client == c then [n] else []
  {
    assert (ns + [n])[..|ns|] == ns;
  }

  lemma {:induction false} AboutAppend(ns: seq<Notice>, ms: seq<Notice>, c: ClientId)
    ensures About(ns + ms, c) == About(ns, c) + About(ms, c)
  {
    if ms == [] {
      assert ns + ms == ns;
    } else {
      var front, n := ms[..|ms| - 1], ms[|ms| - 1];
      assert ns + ms == (ns + front) + [n];
      AboutAppend(ns, front, c);
      AboutSnoc(ns + front, n, c);
    }
  }

  function LastAbout(ns: seq<Notice>, c: ClientId): (last: Option<Notice>) {
    var mine := About(ns, c);
    if mine == [] then None else Some(mine[|mine| - 1])
  }

  /** What a last notice says of its client: seated as this user, or not seated. */
  function Verdict(last: Option<Notice>): (seat: Option<UserId>) {
    match last
    case Some(PlayerJoined(_, u)) => Some(u)
    case _ => None
  }

  function SeatIn(players: Roster, c: ClientId): (seat: Option<UserId>) {
    if c in players then Some(players[c]) else None
  }

  lemma LastSnoc(ns: seq<Notice>, n: Notice, c: ClientId)
    ensures LastAbout(ns + [n], c) == if n.client == c then Some(n) else LastAbout(ns, c)
  {
    AboutSnoc(ns, n, c);
  }

  lemma HearSnoc(players: Roster, ns: seq<Notice>, n: Notice)
    ensures HearAll(players, ns + [n]) == Hear(HearAll(players, ns), n)
  {
    HearAppend(players, ns, [n]);
    HearOne(HearAll(players, ns), n);
  }

  /** A listener takes a client for what the last notice about it says, whatever came before. */
  lemma {:induction false} HeardIsLast(players: Roster, ns: seq<Notice>, c: ClientId)
    ensures SeatIn(HearAll(players, ns), c)
            == if LastAbout(ns, c).None? then SeatIn(players, c) else Verdict(LastAbout(ns, c))
    decreases |ns|
  {
    if ns == [] {
    } else {
      var front, n := ns[..|ns| - 1], ns[|ns| - 1];
      assert ns == front + [n];
      HeardIsLast(players, front, c);
      HearSnoc(players, front, n);
      LastSnoc(front, n, c);
    }
  }

  lemma SameRoster(players: Roster, players': Roster)
    ensures players == players' <==> forall c :: SeatIn(players, c) == SeatIn(players', c)
  {
    if forall c :: SeatIn(players, c) == SeatIn(players', c) {
      forall c ensures (c in players <==> c in players') && (c in players ==> players[c] == players'[c]) {
        assert SeatIn(players, c) == SeatIn(players', c);
      }
    }
  }

  /** Two orders of notices leave the same roster if and only if they end alike about each client. */
  lemma HeardAlikeExactly(ns: seq<Notice>, ms: seq<Notice>)
    ensures HearAll(map[], ns) == HearAll(map[], ms) <==>
            forall c :: Verdict(LastAbout(ns, c)) == Verdict(LastAbout(ms, c))
  {
    forall c ensures SeatIn(HearAll(map[], ns), c) == Verdict(LastAbout(ns, c))
                     && SeatIn(HearAll(map[], ms), c) == Verdict(LastAbout(ms, c))
    {
      HeardIsLast(map[], ns, c);
      HeardIsLast(map[], ms, c);
    }
    SameRoster(HearAll(map[], ns), HearAll(map[], ms));
  }

  /**
   Any run of a new room's closures, and any order in which a listener hears of them: it knows the
   players if and only if the last notice it heard about each client says what the last one issued did.
   */
  lemma AnyOrderExactly(config: Config, keep: bool, actions: seq<Action>, heard: seq<Notice>)
    ensures var r := NewRoom(config, keep);
            HearAll(map[], heard) == RunActions(r, actions).players <==>
            forall c :: Verdict(LastAbout(heard, c)) == Verdict(LastAbout(AnnouncedAll(r, actions), c))
  {
    RosterOverEveryRun(config, keep, actions);
    HeardAlikeExactly(heard, AnnouncedAll(NewRoom(config, keep), actions));
  }

  lemma {:induction false} AboutIsAbout(ns: seq<Notice>, c: ClientId)
    ensures forall i :: 0 <= i < |About(ns, c)| ==> About(ns, c)[i].client == c
  {
    if ns == [] {
    } else {
      AboutIsAbout(ns[..|ns| - 1], c);
    }
  }

  /** Where each client is spoken of in both or in neither, ending alike is ending with the same notice. */
  lemma SameVerdictSameNotice(ns: seq<Notice>, ms: seq<Notice>, c: ClientId)
    requires About(ns, c) == [] <==> About(ms, c) == []
    ensures Verdict(LastAbout(ns, c)) == Verdict(LastAbout(ms, c)) <==> LastAbout(ns, c) == LastAbout(ms, c)
  {
    AboutIsAbout(ns, c);
    AboutIsAbout(ms, c);
  }

  // ---------------------------------------------------------------- no notice twice

  /** A client's notices by turns: it joins when it is not seated, and leaves when it is. */
  predicate TakesTurns(seated: bool, mine: seq<Notice>)
    decreases |mine|
  {
    mine == [] || (mine[0].PlayerJoined? != seated && TakesTurns(!seated, mine[1..]))
  }

  /** Whether the client is seated after them. */
  function SeatedAfter(seated: bool, mine: seq<Notice>): (after: bool) {
    if mine == [] then seated else mine[|mine| - 1].PlayerJoined?
  }

  lemma {:induction false} TurnsAppend(seated: bool, mine: seq<Notice>, more: seq<Notice>)
    ensures TakesTurns(seated, mine + more) <==>
            TakesTurns(seated, mine) && TakesTurns(SeatedAfter(seated, mine), more)
    decreases |mine|
  {
    if mine == [] {
      assert mine + more == more;
    } else {
      assert (mine + more)[1..] == mine[1..] + more;
      TurnsAppend(!seated, mine[1..], more);
    }
  }

  /** A swap that drops a client who does not sit in the room, or seats one who does. */
  predicate Repeats(r: RoomState, a: Action, c: ClientId) {
    && a.DoReplace? && OutcomeOf(r, a).Seated?
    && ((a.prev == c && c !in r.players) || (a.c == c && a.prev != c && c in r.players))
  }

  ghost predicate NeverRepeats(r: RoomState, actions: seq<Action>, c: ClientId)
    decreases |actions|
  {
    actions == [] || (!Repeats(r, actions[0], c) && NeverRepeats(Act(r, actions[0]), actions[1..], c))
  }

  lemma AboutOne(n: Notice, c: ClientId)
    ensures About([n], c) == if n.client == c then [n] else []
  {
    AboutSnoc([], n, c);
  }

  lemma AboutTwo(n: Notice, m: Notice, c: ClientId)
    ensures About([n, m], c) == About([n], c) + About([m], c)
  {
    AboutAppend([n], [m], c);
    assert [n] + [m] == [n, m];
  }

  lemma TurnsOne(seated: bool, n: Notice)
    ensures TakesTurns(seated, [n]) <==> n.PlayerJoined? != seated
  {
    assert [n][1..] == [];
  }

  lemma TurnsTwo(seated: bool, n: Notice, m: Notice)
    ensures TakesTurns(seated, [n, m]) <==> n.PlayerJoined? != seated && m.PlayerJoined? == seated
  {
    assert [n, m][1..] == [m];
    TurnsOne(!seated, m);
  }

  /** What one closure's notices about c say in turn. */
  ghost predicate TurnsOf(r: RoomState, a: Action, c: ClientId) {
    var mine := About(Announced(r, a), c);
    && (TakesTurns(c in r.players, mine) <==> !Repeats(r, a, c))
    && SeatedAfter(c in r.players, mine) == (c in Act(r, a).players)
  }

  lemma SwapTurns(r: RoomState, prev: ClientId, d: ClientId, u: UserId, onLeave: seq<bool>, onJoin: seq<bool>,
                  c: ClientId)
    requires WithinCapacity(r) && OutcomeOf(r, DoReplace(prev, d, u, onLeave, onJoin)).Seated?
    ensures TurnsOf(r, DoReplace(prev, d, u, onLeave, onJoin), c)
  {
    var left, joined := PlayerLeft(prev), PlayerJoined(d, u);
    ReplaceAllOrNothing(r, prev, d, u, onLeave, onJoin);
    AboutTwo(left, joined, c);
    AboutOne(left, c);
    AboutOne(joined, c);
    TurnsOne(c in r.players, left);
    TurnsOne(c in r.players, joined);
    TurnsTwo(c in r.players, left, joined);
    assert [left] + [joined] == [left, joined];
  }

  lemma JoinTurns(r: RoomState, d: ClientId, u: UserId, onJoin: seq<bool>, c: ClientId)
    ensures TurnsOf(r, DoJoin(d, u, onJoin), c)
  {
    SeatFrame(r, d, u, onJoin);
    AboutOne(PlayerJoined(d, u), c);
    TurnsOne(c in r.players, PlayerJoined(d, u));
  }

  lemma LeaveTurns(r: RoomState, d: ClientId, onLeave: seq<bool>, c: ClientId)
    ensures TurnsOf(r, DoLeave(d, onLeave), c)
  {
    DropFrame(r, d, onLeave);
    AboutOne(PlayerLeft(d), c);
    TurnsOne(c in r.players, PlayerLeft(d));
  }

  lemma ClosureTurns(r: RoomState, a: Action, c: ClientId)
    requires WithinCapacity(r)
    ensures TurnsOf(r, a, c)
  {
    match a
    case DoJoin(d, u, onJoin) => JoinTurns(r, d, u, onJoin, c);
    case DoReplace(prev, d, u, onLeave, onJoin) =>
      if OutcomeOf(r, a).Seated? {
        SwapTurns(r, prev, d, u, onLeave, onJoin, c);
      } else {
        ReplaceAllOrNothing(r, prev, d, u, onLeave, onJoin);
      }
    case DoLeave(d, onLeave) => LeaveTurns(r, d, onLeave, c);
    case _ =>
  }

  lemma {:induction false} RunTurns(r: RoomState, actions: seq<Action>, c: ClientId)
    requires WithinCapacity(r)
    ensures TakesTurns(c in r.players, About(AnnouncedAll(r, actions), c)) <==> NeverRepeats(r, actions, c)
    decreases |actions|
  {
    if actions == [] {
    } else {
      var rest := AnnouncedAll(Act(r, actions[0]), actions[1..]);
      ClosureTurns(r, actions[0], c);
      ActKeepsCapacity(r, actions[0]);
      RunTurns(Act(r, actions[0]), actions[1..], c);
      AboutAppend(Announced(r, actions[0]), rest, c);
      TurnsAppend(c in r.players, About(Announced(r, actions[0]), c), About(rest, c));
    }
  }

  /**
   No duplicate notices: over every run of a new room's closures, a client is announced as joined and
   as left by turns, joined first, if and only if no swap of the run drops it where it does not sit or
   seats it where it does. A rejoin announces nothing.
   */
  lemma NoticesAlternateExactly(config: Config, keep: bool, actions: seq<Action>, c: ClientId)
    ensures var r := NewRoom(config, keep);
            TakesTurns(false, About(AnnouncedAll(r, actions), c)) <==> NeverRepeats(r, actions, c)
  {
    RunTurns(NewRoom(config, keep), actions, c);
  }

  // ---------------------------------------------------------------- closures and publishes interleaved

  /** A notice that the caller of a closure has still to publish. */
  datatype Due = Due(caller: ClientId, notice: Notice)

  /**
   The room protocol and the topic of one room. returned holds the callers that know their closure
   ran and have begun to publish; issued, the notices in the order of their closures, is history, and
   heard what a listener of the topic was sent.
   */
  datatype Talk = Talk(s: State, due: seq<Due>, returned: set<ClientId>, issued: seq<Notice>, heard: seq<Notice>)

  /** A step of the protocol, or the publish of a notice that is due. */
  datatype Say = Do(step: Step) | Publish(k: nat)

  ghost function Start(owner: ClientId -> UserId): (t: Talk) {
    Talk(Init(owner), [], {}, [], [])
  }

  function Notices(due: seq<Due>): (ns: seq<Notice>)
    ensures |ns| == |due| && forall i :: 0 <= i < |due| ==> ns[i] == due[i].notice
  {
    seq(|due|, i requires 0 <= i < |due| => due[i].notice)
  }

  function DueFor(caller: ClientId, ns: seq<Notice>): (due: seq<Due>)
    ensures |due| == |ns| && forall i :: 0 <= i < |ns| ==> due[i] == Due(caller, ns[i])
  {
    seq(|ns|, i requires 0 <= i < |ns| => Due(caller, ns[i]))
  }

  ghost predicate Owes(due: seq<Due>, c: ClientId) {
    exists i :: 0 <= i < |due| && due[i].caller == c
  }

  function Without(due: seq<Due>, c: ClientId): (rest: seq<Due>)
    ensures (forall i :: 0 <= i < |due| ==> due[i].caller != c) ==> rest == due
    ensures forall d :: d in rest ==> d in due && d.caller != c
  {
    if due == [] then []
    else Without(due[..|due| - 1], c) + if due[|due| - 1].caller == c then [] else [due[|due| - 1]]
  }

  /** A caller publishes before it goes on, and once it does it no longer gives up. */
  ghost predicate MayDo(t: Talk, step: Step) {
    match step
    case ByClient(c, Resume) => !Owes(t.due, c)
    case ByClient(c, GiveUp) => c !in t.returned
    case _ => true
  }

  /** What the caller of the closure this step runs in room rid will announce. */
  ghost function Announces(s: State, step: Step, rid: RoomId): (ns: seq<Notice>) {
    var a := RoomRemoval.ClosureOf(s, step, rid);
    if step.ByClient? && a.Some? then Announced(s.actors[rid].st, a.value) else []
  }

  /** The step takes client c's request on from a closure; one that gave up announces nothing. */
  ghost predicate Ends(s: State, step: Step, c: ClientId) {
    step.ByClient? && step.c == c && (step.move.Resume? || step.move.GiveUp?) && MoveEnabled(s, c, step.move)
  }

  ghost function AfterDo(t: Talk, rid: RoomId, step: Step): (t': Talk) {
    var ns := Announces(t.s, step, rid);
    var t1 := t.(s := Next(t.s, step), issued := t.issued + ns);
    if !step.ByClient? then t1
    else if Ends(t.s, step, step.c) then t1.(due := Without(t.due, step.c), returned := t.returned - {step.c})
    else t1.(due := t.due + DueFor(step.c, ns))
  }

  /** A caller publishes its own notices in order. */
  ghost predicate MayPublish(due: seq<Due>, k: nat) {
    k < |due| && forall j :: 0 <= j < k ==> due[j].caller != due[k].caller
  }

  ghost function AfterPublish(t: Talk, k: nat): (t': Talk)
    requires k < |t.due|
  {
    t.(due := t.due[..k] + t.due[k + 1..],
       returned := t.returned + {t.due[k].caller},
       heard := t.heard + [t.due[k].notice])
  }

  /** What is not possible is skipped. */
  ghost function After(t: Talk, rid: RoomId, say: Say): (t': Talk) {
    match say
    case Do(step) => if MayDo(t, step) then AfterDo(t, rid, step) else t
    case Publish(k) => if MayPublish(t.due, k) then AfterPublish(t, k) else t
  }

  ghost function AfterAll(t: Talk, rid: RoomId, says: seq<Say>): (t': Talk)
    decreases |says|
  {
    if says == [] then t else AfterAll(After(t, rid, says[0]), rid, says[1..])
  }

  // ---------------------------------------------------------------- what every run keeps

  ghost predicate IsLive(s: State, rid: RoomId) {
    rid in s.actors && s.actors[rid].status.Live?
  }

  /** A notice is due only from a client whose closure ran in the room. */
  ghost predicate DueOk(t: Talk, rid: RoomId) {
    forall i :: 0 <= i < |t.due| ==>
      var c := t.due[i].caller;
      c in t.s.ops && (t.s.ops[c].JoinRan? || t.s.ops[c].LeaveRan?) && t.s.ops[c].rid == rid
  }

  /** While the room runs, the closures' notices tell its players, and none about a client gets lost. */
  ghost predicate TalkOk(t: Talk, rid: RoomId) {
    && DueOk(t, rid)
    && (rid !in t.s.actors ==> t.due == [] && t.issued == [] && t.heard == [])
    && (IsLive(t.s, rid) ==>
          && t.s.actors[rid].st.players == HearAll(map[], t.issued)
          && forall c :: |About(t.issued, c)| == |About(t.heard, c)| + |About(Notices(t.due), c)|)
  }

  lemma SameElsewhere<K, V>(m: map<K, V>, m': map<K, V>, d: K, c: K)
    requires m - {d} == m' - {d} && c != d
    ensures (c in m <==> c in m') && (c in m ==> m'[c] == m[c])
  {
    assert c in m <==> c in m - {d};
    assert c in m' <==> c in m' - {d};
    if c in m {
      assert (m - {d})[c] == (m' - {d})[c];
    }
  }

  lemma OthersStay(s: State, step: Step, c: ClientId)
    requires step.ByClient? ==> step.c != c || !MoveEnabled(s, c, step.move)
    ensures (c in Next(s, step).ops <==> c in s.ops) && (c in s.ops ==> Next(s, step).ops[c] == s.ops[c])
  {
    match step
    case ByClient(d, move) =>
      if d != c {
        SoloRuns.OnlyOwnOp(s, d, move);
        SameElsewhere(s.ops, SoloRuns.AfterMove(s, d, move).ops, d, c);
      }
    case OnRoom(rid, event) =>
      if EventEnabled(s, rid, event) {
        EventKeepsOps(s, rid, event);
      }
    case ShutdownAll =>
  }

  /** The client whose closure ran has its notices due; nobody else runs one while it has. */
  lemma ClosureRan(s: State, step: Step, rid: RoomId)
    requires step.ByClient? && RoomRemoval.ClosureOf(s, step, rid).Some? && Announces(s, step, rid) != []
    ensures var s' := Next(s, step);
            step.c in s'.ops && (s'.ops[step.c].JoinRan? || s'.ops[step.c].LeaveRan?) && s'.ops[step.c].rid == rid
  {}

  lemma DoKeepsDue(t: Talk, rid: RoomId, step: Step)
    requires DueOk(t, rid) && MayDo(t, step)
    ensures DueOk(AfterDo(t, rid, step), rid)
  {
    var t' := AfterDo(t, rid, step);
    forall i | 0 <= i < |t'.due|
      ensures var c := t'.due[i].caller;
              c in t'.s.ops && (t'.s.ops[c].JoinRan? || t'.s.ops[c].LeaveRan?) && t'.s.ops[c].rid == rid
    {
      var c := t'.due[i].caller;
      if t'.due[i] in t.due {
        assert Owes(t.due, c);
        OthersStay(t.s, step, c);
      } else {
        ClosureRan(t.s, step, rid);
      }
    }
  }

  /** A room never runs again, and a new one is empty. */
  lemma LiveSince(s: State, step: Step, rid: RoomId)
    requires IsLive(Next(s, step), rid)
    ensures rid in s.actors ==> IsLive(s, rid)
    ensures rid !in s.actors ==> Next(s, step).actors[rid].st.players == map[]
  {
    match step
    case ByClient(c, move) =>
      if MoveEnabled(s, c, move) {
        MoveKeepsStatus(s, c, move);
      }
    case OnRoom(x, event) =>
    case ShutdownAll =>
  }

  lemma MoveKeepsStatus(s: State, c: ClientId, move: Move)
    requires MoveEnabled(s, c, move)
    ensures var s' := ApplyMove(s, c, move);
            s'.actors.Keys == s.actors.Keys && forall x :: x in s.actors ==> s'.actors[x].status == s.actors[x].status
  {}

  /** In a running room only requests touch the players. */
  lemma PlayersByNotices(s: State, step: Step, rid: RoomId)
    requires WellFormed(s) && IsLive(s, rid)
    ensures Next(s, step).actors[rid].st.players == HearAll(s.actors[rid].st.players, Announces(s, step, rid))
  {
    RoomRemoval.ClosureIsTheChange(s, step, rid);
    assert RoomOk(s, rid);
    var a := RoomRemoval.ClosureOf(s, step, rid);
    if a.Some? {
      ActIsHeard(s.actors[rid].st, a.value);
    }
  }

  /** In a running room no notice is dropped: only a client that owes none, or sees it shut down, goes on. */
  lemma NothingDropped(t: Talk, rid: RoomId, step: Step)
    requires DueOk(t, rid) && MayDo(t, step) && IsLive(t.s, rid)
    ensures Notices(AfterDo(t, rid, step).due) == Notices(t.due) + Announces(t.s, step, rid)
  {
    if step.ByClient? && Ends(t.s, step, step.c) {
      assert !Owes(t.due, step.c);
      assert Without(t.due, step.c) == t.due;
      assert Announces(t.s, step, rid) == [];
    }
  }

  lemma AboutAdvances(issued: seq<Notice>, heard: seq<Notice>, due: seq<Notice>, ns: seq<Notice>, c: ClientId)
    ensures |About(issued + ns, c)| == |About(issued, c)| + |About(ns, c)|
    ensures |About(due + ns, c)| == |About(due, c)| + |About(ns, c)|
  {
    AboutAppend(issued, ns, c);
    AboutAppend(due, ns, c);
  }

  lemma DoKeepsTalk(t: Talk, rid: RoomId, step: Step)
    requires WellFormed(t.s) && TalkOk(t, rid) && MayDo(t, step)
    ensures TalkOk(AfterDo(t, rid, step), rid)
  {
    var t' := AfterDo(t, rid, step);
    DoKeepsDue(t, rid, step);
    var ns := Announces(t.s, step, rid);
    if IsLive(t'.s, rid) {
      LiveSince(t.s, step, rid);
      if rid in t.s.actors {
        PlayersByNotices(t.s, step, rid);
        HearAppend(map[], t.issued, ns);
        NothingDropped(t, rid, step);
        forall c ensures |About(t'.issued, c)| == |About(t'.heard, c)| + |About(Notices(t'.due), c)| {
          AboutAdvances(t.issued, t.heard, Notices(t.due), ns, c);
        }
      }
    }
  }

  /** Taking one notice out of those due. */
  lemma AboutTaken(due: seq<Due>, k: nat, c: ClientId)
    requires k < |due|
    ensures var before, after := Notices(due[..k]), Notices(due[k + 1..]);
            var own := if due[k].notice.client == c then [due[k].notice] else [];
            && About(Notices(due), c) == About(before, c) + own + About(after, c)
            && About(Notices(due[..k] + due[k + 1..]), c) == About(before, c) + About(after, c)
  {
    var before, after := Notices(due[..k]), Notices(due[k + 1..]);
    assert Notices(due) == before + [due[k].notice] + after;
    assert Notices(due[..k] + due[k + 1..]) == before + after;
    AboutAppend(before + [due[k].notice], after, c);
    AboutSnoc(before, due[k].notice, c);
    AboutAppend(before, after, c);
  }

  lemma PublishKeepsTalk(t: Talk, rid: RoomId, k: nat)
    requires TalkOk(t, rid) && MayPublish(t.due, k)
    ensures TalkOk(AfterPublish(t, k), rid)
  {
    var t' := AfterPublish(t, k);
    assert forall d :: d in t'.due ==> d in t.due;
    if IsLive(t.s, rid) {
      forall c ensures |About(t'.issued, c)| == |About(t'.heard, c)| + |About(Notices(t'.due), c)| {
        AboutTaken(t.due, k, c);
        AboutSnoc(t.heard, t.due[k].notice, c);
      }
    }
  }

  lemma {:induction false} RunsKeepTalk(t: Talk, rid: RoomId, says: seq<Say>)
    requires RoomRuns.Safe(t.s) && TalkOk(t, rid)
    ensures RoomRuns.Safe(AfterAll(t, rid, says).s) && TalkOk(AfterAll(t, rid, says), rid)
    decreases |says|
  {
    if says == [] {
    } else {
      SayKeepsTalk(t, rid, says[0]);
      RunsKeepTalk(After(t, rid, says[0]), rid, says[1..]);
    }
  }

  lemma SayKeepsTalk(t: Talk, rid: RoomId, say: Say)
    requires RoomRuns.Safe(t.s) && TalkOk(t, rid)
    ensures RoomRuns.Safe(After(t, rid, say).s) && TalkOk(After(t, rid, say), rid)
  {
    match say
    case Do(step) =>
      if MayDo(t, step) {
        SafeStep(t.s, step);
        DoKeepsTalk(t, rid, step);
      }
    case Publish(k) =>
      if MayPublish(t.due, k) {
        PublishKeepsTalk(t, rid, k);
      }
  }

  lemma SafeStep(s: State, step: Step)
    requires RoomRuns.Safe(s)
    ensures RoomRuns.Safe(Next(s, step))
  {
    assert [step][1..] == [];
    assert Exec(s, [step]) == Next(s, step);
    RoomRuns.RunsKeepSafe(s, [step]);
  }

  lemma StartIsOk(owner: ClientId -> UserId, rid: RoomId)
    ensures RoomRuns.Safe(Start(owner).s) && TalkOk(Start(owner), rid)
  {
    RoomRuns.RunsKeepSafe(Init(owner), []);
  }

  /** The listener's roster is the room's. */
  ghost predicate Knows(t: Talk, rid: RoomId)
    requires rid in t.s.actors
  {
    HearAll(map[], t.heard) == t.s.actors[rid].st.players
  }

  /**
   In every interleaving of requests, closures and publishes: a listener of a registered room knows
   its players if and only if, about each client, the last notice it heard says what the last closure's
   did; and once all is published, if and only if it is that notice.
   */
  lemma ListenerExactly(owner: ClientId -> UserId, rid: RoomId, says: seq<Say>)
    requires rid in AfterAll(Start(owner), rid, says).s.registered
    ensures var t := AfterAll(Start(owner), rid, says);
            && rid in t.s.actors
            && (Knows(t, rid) <==> forall c :: Verdict(LastAbout(t.heard, c)) == Verdict(LastAbout(t.issued, c)))
            && (t.due == [] ==> (Knows(t, rid) <==> forall c :: LastAbout(t.heard, c) == LastAbout(t.issued, c)))
  {
    var t := AfterAll(Start(owner), rid, says);
    StartIsOk(owner, rid);
    RunsKeepTalk(Start(owner), rid, says);
    assert RoomOk(t.s, rid);
    HeardAlikeExactly(t.heard, t.issued);
    if t.due == [] {
      forall c ensures Verdict(LastAbout(t.heard, c)) == Verdict(LastAbout(t.issued, c)) <==>
                       LastAbout(t.heard, c) == LastAbout(t.issued, c)
      {
        assert |About(t.issued, c)| == |About(t.heard, c)|;
        SameVerdictSameNotice(t.heard, t.issued, c);
      }
    }
  }

  // ---------------------------------------------------------------- announcements out of order

  /** An earlier notice about the same client, that says something else, is still due. */
  ghost predicate Overtakes(due: seq<Due>, k: nat)
    requires k < |due|
  {
    exists j :: 0 <= j < k && due[j].notice.client == due[k].notice.client && due[j].notice != due[k].notice
  }

  /** About client c, the listener has heard the notices in the order of the closures, up to those due. */
  ghost predicate InOrderAbout(t: Talk, c: ClientId) {
    About(t.issued, c) == About(t.heard, c) + About(Notices(t.due), c)
  }

  ghost predicate InOrder(t: Talk) {
    forall c :: InOrderAbout(t, c)
  }

  lemma {:induction false} AboutMembers(ns: seq<Notice>, c: ClientId, n: Notice)
    ensures n in About(ns, c) <==> n in ns && n.client == c
  {
    if ns == [] {
    } else {
      var front := ns[..|ns| - 1];
      AboutMembers(front, c, n);
      assert ns == front + [ns[|ns| - 1]];
    }
  }

  /** An element moved to the front changes nothing only among its equals. */
  lemma RotateExactly<T>(xs: seq<T>, y: T)
    ensures [y] + xs == xs + [y] <==> forall i :: 0 <= i < |xs| ==> xs[i] == y
  {
    if [y] + xs == xs + [y] {
      var i := 0;
      while i < |xs|
        invariant i <= |xs| && forall j :: 0 <= j < i ==> xs[j] == y
      {
        assert ([y] + xs)[i] == (xs + [y])[i] == xs[i];
        i := i + 1;
      }
    }
  }

  lemma RotateInside<T>(heard: seq<T>, before: seq<T>, y: T, after: seq<T>)
    ensures heard + (before + [y] + after) == heard + [y] + (before + after) <==>
            forall i :: 0 <= i < |before| ==> before[i] == y
  {
    RotateExactly(before, y);
    CancelEnds(heard, before + [y], [y] + before, after);
    assert heard + (before + [y]) + after == heard + (before + [y] + after);
    assert heard + ([y] + before) + after == heard + [y] + (before + after);
  }

  lemma OvertakesExactly(due: seq<Due>, k: nat)
    requires k < |due|
    ensures var n := due[k].notice;
            var mine := About(Notices(due[..k]), n.client);
            !Overtakes(due, k) <==> forall i :: 0 <= i < |mine| ==> mine[i] == n
  {
    var n := due[k].notice;
    var before := Notices(due[..k]);
    var mine := About(before, n.client);
    if !Overtakes(due, k) {
      forall i | 0 <= i < |mine| ensures mine[i] == n {
        AboutMembers(before, n.client, mine[i]);
        var j :| 0 <= j < k && before[j] == mine[i];
        assert due[j].notice == mine[i];
      }
    } else {
      var j :| 0 <= j < k && due[j].notice.client == n.client && due[j].notice != n;
      assert before[j] == due[j].notice;
      AboutMembers(before, n.client, due[j].notice);
    }
  }

  /** What a publish moves from the notices due to those heard, about one client. */
  lemma PublishedAbout(t: Talk, k: nat, c: ClientId)
    requires k < |t.due|
    ensures var t' := AfterPublish(t, k);
            var before, after := About(Notices(t.due[..k]), c), About(Notices(t.due[k + 1..]), c);
            var own := if t.due[k].notice.client == c then [t.due[k].notice] else [];
            && About(t'.heard, c) == About(t.heard, c) + own
            && About(Notices(t'.due), c) == before + after
            && About(Notices(t.due), c) == before + own + after
  {
    AboutTaken(t.due, k, c);
    AboutSnoc(t.heard, t.due[k].notice, c);
  }

  lemma PublishOrderOfOther(t: Talk, k: nat, c: ClientId)
    requires k < |t.due| && InOrderAbout(t, c) && c != t.due[k].notice.client
    ensures InOrderAbout(AfterPublish(t, k), c)
  {
    PublishedAbout(t, k, c);
    var before := About(Notices(t.due[..k]), c);
    assert before + [] == before;
  }

  /** A publish keeps the order of its client's notices exactly if it takes none past another. */
  lemma PublishOrderOfOwn(t: Talk, k: nat)
    requires k < |t.due| && InOrderAbout(t, t.due[k].notice.client)
    ensures InOrderAbout(AfterPublish(t, k), t.due[k].notice.client) <==> !Overtakes(t.due, k)
  {
    var n := t.due[k].notice;
    var before, after := About(Notices(t.due[..k]), n.client), About(Notices(t.due[k + 1..]), n.client);
    PublishedAbout(t, k, n.client);
    OvertakesExactly(t.due, k);
    RotateInside(About(t.heard, n.client), before, n, after);
  }

  lemma CancelEnds<T>(xs: seq<T>, ys: seq<T>, zs: seq<T>, ws: seq<T>)
    requires |ys| == |zs|
    ensures xs + ys + ws == xs + zs + ws <==> ys == zs
  {
    if xs + ys + ws == xs + zs + ws {
      assert (xs + ys + ws)[|xs|..|xs| + |ys|] == ys;
      assert (xs + zs + ws)[|xs|..|xs| + |zs|] == zs;
    }
  }

  lemma PublishOrderExactly(t: Talk, k: nat)
    requires InOrder(t) && k < |t.due|
    ensures InOrder(AfterPublish(t, k)) <==> !Overtakes(t.due, k)
  {
    var t' := AfterPublish(t, k);
    assert InOrderAbout(t, t.due[k].notice.client);
    PublishOrderOfOwn(t, k);
    forall c | c != t.due[k].notice.client ensures InOrderAbout(t', c) {
      assert InOrderAbout(t, c);
      PublishOrderOfOther(t, k, c);
    }
    assert InOrder(t') ==> InOrderAbout(t', t.due[k].notice.client);
  }

  lemma OrderAdvances(issued: seq<Notice>, heard: seq<Notice>, due: seq<Notice>, ns: seq<Notice>, c: ClientId)
    requires About(issued, c) == About(heard, c) + About(due, c)
    ensures About(issued + ns, c) == About(heard, c) + About(due + ns, c)
  {
    AboutAppend(issued, ns, c);
    AboutAppend(due, ns, c);
  }

  lemma DoKeepsOrder(t: Talk, rid: RoomId, step: Step)
    requires TalkOk(t, rid) && MayDo(t, step) && IsLive(t.s, rid) && InOrder(t)
    ensures InOrder(AfterDo(t, rid, step))
  {
    var ns := Announces(t.s, step, rid);
    NothingDropped(t, rid, step);
    forall c ensures InOrderAbout(AfterDo(t, rid, step), c) {
      assert InOrderAbout(t, c);
      OrderAdvances(t.issued, t.heard, Notices(t.due), ns, c);
    }
  }

  /** While the room runs, the publish of a notice overtakes another one. */
  ghost predicate SayOvertakes(t: Talk, rid: RoomId, say: Say) {
    IsLive(t.s, rid) && say.Publish? && MayPublish(t.due, say.k) && Overtakes(t.due, say.k)
  }

  lemma SayOrderExactly(t: Talk, rid: RoomId, say: Say)
    requires RoomRuns.Safe(t.s) && TalkOk(t, rid) && (IsLive(t.s, rid) ==> InOrder(t))
    ensures (IsLive(After(t, rid, say).s, rid) ==> InOrder(After(t, rid, say))) <==> !SayOvertakes(t, rid, say)
  {
    match say
    case Do(step) =>
      if MayDo(t, step) && IsLive(After(t, rid, say).s, rid) {
        LiveSince(t.s, step, rid);
        if rid in t.s.actors {
          DoKeepsOrder(t, rid, step);
        }
      }
    case Publish(k) =>
      if MayPublish(t.due, k) && IsLive(t.s, rid) {
        PublishOrderExactly(t, k);
      }
  }

  ghost predicate AlwaysInOrder(t: Talk, rid: RoomId, says: seq<Say>)
    decreases |says|
  {
    && (IsLive(t.s, rid) ==> InOrder(t))
    && (says == [] || AlwaysInOrder(After(t, rid, says[0]), rid, says[1..]))
  }

  ghost predicate NeverOvertakes(t: Talk, rid: RoomId, says: seq<Say>)
    decreases |says|
  {
    says == [] || (!SayOvertakes(t, rid, says[0]) && NeverOvertakes(After(t, rid, says[0]), rid, says[1..]))
  }

  lemma {:induction false} RunOrderExactly(t: Talk, rid: RoomId, says: seq<Say>)
    requires RoomRuns.Safe(t.s) && TalkOk(t, rid) && (IsLive(t.s, rid) ==> InOrder(t))
    ensures AlwaysInOrder(t, rid, says) <==> NeverOvertakes(t, rid, says)
    ensures NeverOvertakes(t, rid, says) ==>
              var t' := AfterAll(t, rid, says); IsLive(t'.s, rid) ==> InOrder(t')
    decreases |says|
  {
    if says == [] {
    } else {
      SayKeepsTalk(t, rid, says[0]);
      SayOrderExactly(t, rid, says[0]);
      if !SayOvertakes(t, rid, says[0]) {
        RunOrderExactly(After(t, rid, says[0]), rid, says[1..]);
      }
    }
  }

  /**
   Over every run, a listener of a running room hears the notices about each client in the order of
   the closures throughout, if and only if no publish overtakes a notice about the same client.
   */
  lemma OrderExactly(owner: ClientId -> UserId, rid: RoomId, says: seq<Say>)
    ensures AlwaysInOrder(Start(owner), rid, says) <==> NeverOvertakes(Start(owner), rid, says)
  {
    StartIsOk(owner, rid);
    RunOrderExactly(Start(owner), rid, says);
  }

  /** The listener is wrong at most about clients whose notices are due. */
  ghost predicate KnowsAllButDue(t: Talk, rid: RoomId)
    requires rid in t.s.actors
  {
    forall c :: About(Notices(t.due), c) == [] ==>
      SeatIn(HearAll(map[], t.heard), c) == SeatIn(t.s.actors[rid].st.players, c)
  }

  lemma InOrderKnows(t: Talk, rid: RoomId)
    requires TalkOk(t, rid) && IsLive(t.s, rid) && InOrder(t)
    ensures KnowsAllButDue(t, rid) && (t.due == [] ==> Knows(t, rid))
  {
    forall c | About(Notices(t.due), c) == []
      ensures SeatIn(HearAll(map[], t.heard), c) == SeatIn(t.s.actors[rid].st.players, c)
    {
      HeardIsLast(map[], t.heard, c);
      HeardIsLast(map[], t.issued, c);
      assert InOrderAbout(t, c);
    }
    SameRoster(HearAll(map[], t.heard), t.s.actors[rid].st.players);
  }

  /** In such a run the listener is wrong about nobody but clients with notices due, and at rest knows all. */
  lemma ListenerInOrder(owner: ClientId -> UserId, rid: RoomId, says: seq<Say>)
    requires NeverOvertakes(Start(owner), rid, says) && rid in AfterAll(Start(owner), rid, says).s.registered
    ensures var t := AfterAll(Start(owner), rid, says);
            rid in t.s.actors && KnowsAllButDue(t, rid) && (t.due == [] ==> Knows(t, rid))
  {
    StartIsOk(owner, rid);
    RunsKeepTalk(Start(owner), rid, says);
    RunOrderExactly(Start(owner), rid, says);
    var t := AfterAll(Start(owner), rid, says);
    assert RoomOk(t.s, rid);
    InOrderKnows(t, rid);
  }

  // ---------------------------------------------------------------- where nobody is replaced

  ghost predicate Replaces(s: State, z: RoomId, x: RoomId)
    requires x in s.actors
  {
    z in s.actors && s.actors[z].st.config.mode == Replace && s.actors[z].st.config.typ == s.actors[x].st.config.typ
  }

  /** Some replacing room, perhaps this one, shares the room's type. */
  ghost predicate Replaceable(s: State, x: RoomId) {
    x in s.actors && exists z :: Replaces(s, z, x)
  }

  lemma ReplaceableStays(s: State, s': State, x: RoomId)
    requires ConfigsKept(s, s') && Replaceable(s, x)
    ensures Replaceable(s', x)
  {
    var z :| Replaces(s, z, x);
    assert Replaces(s', z, x);
  }

  /** Only a seat in such a room is taken over, swapped out or kicked. */
  ghost predicate TakerOk(s: State, c: ClientId)
    requires c in s.ops
  {
    match s.ops[c]
    case JoinQueued(_, replaced) => replaced.Some? ==> Replaceable(s, replaced.value.room)
    case JoinRan(_, replaced, _) => replaced.Some? ==> Replaceable(s, replaced.value.room)
    case KickDue(x, _) => Replaceable(s, x)
    case LeaveQueued(x, leaver) => leaver != c ==> Replaceable(s, x)
    case _ => true
  }

  ghost predicate TakersOk(s: State) {
    forall c :: c in s.ops ==> TakerOk(s, c)
  }

  lemma TakerStays(s: State, s': State, c: ClientId)
    requires ConfigsKept(s, s') && c in s.ops && c in s'.ops && s'.ops[c] == s.ops[c] && TakerOk(s, c)
    ensures TakerOk(s', c)
  {
    forall x | Replaceable(s, x) ensures Replaceable(s', x) {
      ReplaceableStays(s, s', x);
    }
  }

  lemma BeginTakes(s: State, c: ClientId, x: RoomId)
    requires RecordsOk(s) && x in s.actors && c !in s.ops
    ensures var s' := DoBeginJoin(s, c, x); c in s'.ops ==> TakerOk(s', c)
  {
    var config := s.actors[x].st.config;
    var current := Lookup(s.sessions, s.owner(c), config.typ);
    if config.mode == Replace && current.Some? {
      assert RecordOk(s, config.typ, current.value.room);
      var s' := DoBeginJoin(s, c, x);
      assert Replaces(s', x, current.value.room);
    }
  }

  lemma OwnMoveTakes(s: State, c: ClientId, move: Move)
    requires RecordsOk(s) && TakersOk(s) && MoveEnabled(s, c, move)
    ensures var s' := ApplyMove(s, c, move); c in s'.ops ==> TakerOk(s', c)
  {
    var s' := ApplyMove(s, c, move);
    assert c in s.ops ==> TakerOk(s, c);
    forall x | Replaceable(s, x) ensures Replaceable(s', x) {
      ReplaceableStays(s, s', x);
    }
    match move
    case BeginJoin(x) => BeginTakes(s, c, x);
    case _ =>
  }

  lemma StepKeepsTakers(s: State, step: Step)
    requires RecordsOk(s) && TakersOk(s)
    ensures TakersOk(Next(s, step))
  {
    var s' := Next(s, step);
    forall c | c in s'.ops ensures TakerOk(s', c) {
      if step.ByClient? && step.c == c && MoveEnabled(s, c, step.move) {
        OwnMoveTakes(s, c, step.move);
      } else {
        OthersStay(s, step, c);
        TakerStays(s, s', c);
      }
    }
  }

  /** Each notice due is its caller's own, and a caller's only one. */
  ghost predicate OwnDue(due: seq<Due>) {
    && (forall i :: 0 <= i < |due| ==> due[i].notice.client == due[i].caller)
    && (forall i, j :: 0 <= i < j < |due| ==> due[i].caller != due[j].caller)
  }

  lemma OwnNotice(s: State, step: Step, rid: RoomId)
    requires TakersOk(s) && !Replaceable(s, rid) && step.ByClient?
    ensures var ns := Announces(s, step, rid);
            |ns| <= 1 && forall i :: 0 <= i < |ns| ==> ns[i].client == step.c
  {
    if RoomRemoval.ClosureOf(s, step, rid).Some? {
      assert TakerOk(s, step.c);
    }
  }

  lemma {:induction false} WithoutKeepsOwn(due: seq<Due>, c: ClientId)
    requires OwnDue(due)
    ensures OwnDue(Without(due, c))
  {
    if due == [] {
    } else {
      var front := due[..|due| - 1];
      WithoutKeepsOwn(front, c);
      forall d | d in Without(front, c) ensures d.caller != due[|due| - 1].caller {
        assert d in front;
      }
    }
  }

  lemma OwnNoticeAppended(due: seq<Due>, c: ClientId, ns: seq<Notice>)
    requires OwnDue(due) && !Owes(due, c) && |ns| <= 1 && forall i :: 0 <= i < |ns| ==> ns[i].client == c
    ensures OwnDue(due + DueFor(c, ns))
  {}

  /** A client announces nothing new while it owes something. */
  lemma NoticesOneAtATime(t: Talk, rid: RoomId, step: Step)
    requires DueOk(t, rid) && step.ByClient? && Announces(t.s, step, rid) != []
    ensures !Owes(t.due, step.c) && !Ends(t.s, step, step.c)
  {
    assert !(t.s.ops[step.c].JoinRan? || t.s.ops[step.c].LeaveRan?);
  }

  lemma DoKeepsOwn(t: Talk, rid: RoomId, step: Step)
    requires TakersOk(t.s) && !Replaceable(t.s, rid) && DueOk(t, rid) && OwnDue(t.due)
    ensures OwnDue(AfterDo(t, rid, step).due)
  {
    if step.ByClient? {
      var ns := Announces(t.s, step, rid);
      if Ends(t.s, step, step.c) {
        WithoutKeepsOwn(t.due, step.c);
      } else if ns == [] {
        assert t.due + DueFor(step.c, ns) == t.due;
      } else {
        OwnNotice(t.s, step, rid);
        NoticesOneAtATime(t, rid, step);
        OwnNoticeAppended(t.due, step.c, ns);
      }
    }
  }

  lemma PublishKeepsOwn(due: seq<Due>, k: nat)
    requires OwnDue(due) && k < |due|
    ensures OwnDue(due[..k] + due[k + 1..]) && !Overtakes(due, k)
  {}

  lemma SayKeepsReplaceable(t: Talk, rid: RoomId, say: Say, x: RoomId)
    requires Replaceable(t.s, x)
    ensures Replaceable(After(t, rid, say).s, x)
  {
    if say.Do? {
      ReplaceableStays(t.s, Next(t.s, say.step), x);
    }
  }

  lemma {:induction false} RunKeepsReplaceable(t: Talk, rid: RoomId, says: seq<Say>, x: RoomId)
    requires Replaceable(t.s, x)
    ensures Replaceable(AfterAll(t, rid, says).s, x)
    decreases |says|
  {
    if says == [] {
    } else {
      SayKeepsReplaceable(t, rid, says[0], x);
      RunKeepsReplaceable(After(t, rid, says[0]), rid, says[1..], x);
    }
  }

  lemma SayKeepsTakers(t: Talk, rid: RoomId, say: Say)
    requires RecordsOk(t.s) && TakersOk(t.s)
    ensures TakersOk(After(t, rid, say).s)
  {
    if say.Do? {
      StepKeepsTakers(t.s, say.step);
    }
  }

  lemma SayKeepsOwn(t: Talk, rid: RoomId, say: Say)
    requires TakersOk(t.s) && !Replaceable(t.s, rid) && DueOk(t, rid) && OwnDue(t.due)
    ensures OwnDue(After(t, rid, say).due) && !SayOvertakes(t, rid, say)
  {
    match say
    case Do(step) => DoKeepsOwn(t, rid, step);
    case Publish(k) =>
      if k < |t.due| {
        PublishKeepsOwn(t.due, k);
      }
  }

  lemma {:induction false} OwnRunsInOrder(t: Talk, rid: RoomId, says: seq<Say>)
    requires RoomRuns.Safe(t.s) && TakersOk(t.s) && TalkOk(t, rid) && OwnDue(t.due)
    requires !Replaceable(AfterAll(t, rid, says).s, rid)
    ensures NeverOvertakes(t, rid, says)
    decreases |says|
  {
    if says == [] {
    } else {
      if Replaceable(t.s, rid) {
        RunKeepsReplaceable(t, rid, says, rid);
      }
      SayKeepsTakers(t, rid, says[0]);
      SayKeepsOwn(t, rid, says[0]);
      SayKeepsTalk(t, rid, says[0]);
      OwnRunsInOrder(After(t, rid, says[0]), rid, says[1..]);
    }
  }

  /**
   Where no room of the type replaces, no publish overtakes, so in every interleaving the listener is
   wrong about nobody but clients with notices due, and at rest knows all the players.
   */
  lemma ListenerWhereNobodyIsReplaced(owner: ClientId -> UserId, rid: RoomId, says: seq<Say>)
    requires var t := AfterAll(Start(owner), rid, says); rid in t.s.registered && !Replaceable(t.s, rid)
    ensures NeverOvertakes(Start(owner), rid, says)
    ensures var t := AfterAll(Start(owner), rid, says);
            rid in t.s.actors && KnowsAllButDue(t, rid) && (t.due == [] ==> Knows(t, rid))
  {
    StartIsOk(owner, rid);
    OwnRunsInOrder(Start(owner), rid, says);
    ListenerInOrder(owner, rid, says);
  }

  // ---------------------------------------------------------------- a run that misleads

  ghost predicate Leads(t: Talk, rid: RoomId, t': Talk) {
    exists says :: AfterAll(t, rid, says) == t'
  }

  lemma LeadsBySay(t: Talk, rid: RoomId, say: Say)
    ensures Leads(t, rid, After(t, rid, say))
  {
    assert [say][1..] == [];
    assert AfterAll(t, rid, [say]) == After(t, rid, say);
  }

  lemma {:induction false} AfterAllAppend(t: Talk, rid: RoomId, first: seq<Say>, second: seq<Say>)
    ensures AfterAll(t, rid, first + second) == AfterAll(AfterAll(t, rid, first), rid, second)
    decreases |first|
  {
    if first == [] {
      assert first + second == second;
    } else {
      assert (first + second)[1..] == first[1..] + second;
      AfterAllAppend(After(t, rid, first[0]), rid, first[1..], second);
    }
  }

  lemma LeadsTrans(t: Talk, rid: RoomId, t': Talk, t'': Talk)
    requires Leads(t, rid, t') && Leads(t', rid, t'')
    ensures Leads(t, rid, t'')
  {
    var first :| AfterAll(t, rid, first) == t';
    var second :| AfterAll(t', rid, second) == t'';
    AfterAllAppend(t, rid, first, second);
  }

  lemma NoticesHead(heard: seq<Notice>, due: seq<Due>)
    requires due != []
    ensures (heard + [due[0].notice]) + Notices(due[1..]) == heard + Notices(due)
  {
    assert Notices(due) == [due[0].notice] + Notices(due[1..]);
  }

  lemma PublishFirst(t: Talk, rid: RoomId)
    requires t.due != []
    ensures After(t, rid, Publish(0)) ==
            t.(due := t.due[1..], returned := t.returned + {t.due[0].caller}, heard := t.heard + [t.due[0].notice])
  {
    assert MayPublish(t.due, 0);
    assert t.due[..0] + t.due[0 + 1..] == t.due[1..];
  }

  /** No notice is stuck: whatever is due can be published, in the order it came due. */
  lemma {:induction false} EveryNoticeGoesOut(t: Talk, rid: RoomId) returns (t': Talk)
    ensures Leads(t, rid, t') && t'.due == [] && t'.heard == t.heard + Notices(t.due)
    ensures t'.s == t.s && t'.issued == t.issued
    decreases |t.due|
  {
    if t.due == [] {
      assert AfterAll(t, rid, []) == t;
      t' := t;
    } else {
      var t1 := After(t, rid, Publish(0));
      PublishFirst(t, rid);
      NoticesHead(t.heard, t.due);
      LeadsBySay(t, rid, Publish(0));
      t' := EveryNoticeGoesOut(t1, rid);
      LeadsTrans(t, rid, t1, t');
    }
  }

  /** A step that runs no closure of the room changes the protocol's state alone. */
  lemma QuietStep(t: Talk, rid: RoomId, step: Step)
    requires t.due == [] && Announces(t.s, step, rid) == [] && !(step.ByClient? && step.move.GiveUp?)
    requires !(step.ByClient? && step.move.Resume?)
    ensures Leads(t, rid, t.(s := Next(t.s, step)))
  {
    LeadsBySay(t, rid, Do(step));
    assert t.due + DueFor(0, []) == t.due;
  }

  /** A new client's join of a replacing room, recorded and queued. */
  lemma JoinBegun(t: Talk, rid: RoomId, c: ClientId) returns (t': Talk)
    requires t.due == [] && c !in t.s.ops && rid in t.s.registered && rid in t.s.actors
    requires t.s.actors[rid].st.config.mode == Replace
    requires var current := Lookup(t.s.sessions, t.s.owner(c), t.s.actors[rid].st.config.typ);
             current != Some(Session(rid, c))
    ensures Leads(t, rid, t') && t' == t.(s := t'.s)
    ensures var config := t.s.actors[rid].st.config;
            var current := Lookup(t.s.sessions, t.s.owner(c), config.typ);
            && t'.s.ops == t.s.ops[c := JoinQueued(rid, current)]
            && t'.s.actors == t.s.actors && t'.s.registered == t.s.registered && t'.s.owner == t.s.owner
            && Lookup(t'.s.sessions, t.s.owner(c), config.typ) == Some(Session(rid, c))
  {
    QuietStep(t, rid, ByClient(c, BeginJoin(rid)));
    t' := t.(s := DoBeginJoin(t.s, c, rid));
  }

  /** A join closure that runs without hooks, and leaves its caller with the notices. */
  lemma JoinRun(t: Talk, rid: RoomId, c: ClientId, replaced: Option<Session>) returns (t': Talk)
    requires IsLive(t.s, rid) && c in t.s.ops && t.s.ops[c] == JoinQueued(rid, replaced)
    ensures Leads(t, rid, t') && t'.s.registered == t.s.registered && t'.s.owner == t.s.owner && t'.heard == t.heard
    ensures var r, a := t.s.actors[rid].st, JoinAction(t.s, c, rid, replaced, [], []);
            && t'.s.actors == t.s.actors[rid := t.s.actors[rid].(st := Act(r, a))]
            && t'.s.ops == t.s.ops[c := JoinRan(rid, replaced, OutcomeOf(r, a))]
            && t'.due == t.due + DueFor(c, Announced(r, a))
  {
    var step := ByClient(c, RunClosure([], []));
    LeadsBySay(t, rid, Do(step));
    t' := AfterDo(t, rid, step);
  }

  lemma Published(t: Talk, rid: RoomId, k: nat) returns (t': Talk)
    requires MayPublish(t.due, k)
    ensures Leads(t, rid, t') && t' == AfterPublish(t, k)
  {
    LeadsBySay(t, rid, Publish(k));
    t' := AfterPublish(t, k);
  }

  /** What the closures of a join and of the swap that takes its seat over announce. */
  lemma JoinThenSwap(r: RoomState, c1: ClientId, c2: ClientId, u: UserId)
    requires IsEmpty(r) && r.isOpen && WithinCapacity(r) && c1 != c2
    ensures var join, swap := DoJoin(c1, u, []), DoReplace(c1, c2, u, [], []);
            && Announced(r, join) == [PlayerJoined(c1, u)]
            && Announced(Act(r, join), swap) == [PlayerLeft(c1), PlayerJoined(c2, u)]
            && c1 !in Act(Act(r, join), swap).players
  {
    var join := DoJoin(c1, u, []);
    SeatFrame(r, c1, u, []);
    ActKeepsCapacity(r, join);
    ReplaceAllOrNothing(Act(r, join), c1, c2, u, [], []);
  }

  /** Both closures run before either caller publishes. */
  lemma BothRan(t: Talk, rid: RoomId, c1: ClientId, c2: ClientId) returns (t': Talk)
    requires t.due == [] && t.heard == [] && c1 != c2 && t.s.owner(c1) == t.s.owner(c2)
    requires IsLive(t.s, rid) && rid in t.s.registered
    requires var r := t.s.actors[rid].st; IsEmpty(r) && r.isOpen && WithinCapacity(r)
    requires c1 in t.s.ops && t.s.ops[c1] == JoinQueued(rid, None)
    requires c2 in t.s.ops && t.s.ops[c2] == JoinQueued(rid, Some(Session(rid, c1)))
    ensures Leads(t, rid, t') && rid in t'.s.registered && rid in t'.s.actors && c1 !in t'.s.actors[rid].st.players
    ensures var u := t.s.owner(c1);
            t'.due == [Due(c1, PlayerJoined(c1, u)), Due(c2, PlayerLeft(c1)), Due(c2, PlayerJoined(c2, u))]
    ensures t'.heard == []
  {
    JoinThenSwap(t.s.actors[rid].st, c1, c2, t.s.owner(c1));
    var t1 := JoinRun(t, rid, c1, None);
    t' := JoinRun(t1, rid, c2, Some(Session(rid, c1)));
    LeadsTrans(t, rid, t1, t');
  }

  /** The second caller publishes first. */
  lemma LastIsHeardFirst(t: Talk, rid: RoomId, c1: ClientId, c2: ClientId, u: UserId) returns (t': Talk)
    requires t.due == [Due(c1, PlayerJoined(c1, u)), Due(c2, PlayerLeft(c1)), Due(c2, PlayerJoined(c2, u))]
    requires t.heard == [] && c1 != c2
    ensures Leads(t, rid, t') && t'.s == t.s && t'.due == []
    ensures c1 in HearAll(map[], t'.heard)
  {
    var t1 := Published(t, rid, 1);
    assert t1.due == [Due(c1, PlayerJoined(c1, u)), Due(c2, PlayerJoined(c2, u))];
    var t2 := Published(t1, rid, 1);
    assert t2.due == [Due(c1, PlayerJoined(c1, u))];
    t' := Published(t2, rid, 0);
    LeadsTrans(t, rid, t1, t2);
    LeadsTrans(t, rid, t2, t');
    AboutSnoc(t2.heard, PlayerJoined(c1, u), c1);
    HeardIsLast(map[], t'.heard, c1);
  }

  /** A new replacing room, and the joins of two clients of one user under way. */
  lemma TwoJoinsQueued(owner: ClientId -> UserId, rid: RoomId, config: Config) returns (t: Talk)
    requires owner(1) == owner(2) && config.mode == Replace
    ensures Leads(Start(owner), rid, t) && t.due == [] && t.heard == [] && t.s.owner == owner
    ensures rid in t.s.registered && IsLive(t.s, rid) && t.s.actors[rid].st == NewRoom(config, false)
    ensures t.s.ops == map[1 := JoinQueued(rid, None), 2 := JoinQueued(rid, Some(Session(rid, 1)))]
  {
    var create := OnRoom(rid, RoomProtocol.Create(config, false));
    QuietStep(Start(owner), rid, create);
    var t0 := Start(owner).(s := Next(Init(owner), create));
    assert Lookup(t0.s.sessions, owner(1), config.typ) == None;
    var t1 := JoinBegun(t0, rid, 1);
    t := JoinBegun(t1, rid, 2);
    LeadsTrans(Start(owner), rid, t0, t1);
    LeadsTrans(Start(owner), rid, t1, t);
  }

  /**
   A reachable state of a registered room in which everything has been published, and the listener
   takes a client for a player that was swapped out.
   */
  lemma ListenerMisledFromScratch(owner: ClientId -> UserId) returns (t: Talk)
    requires owner(1) == owner(2)
    ensures Leads(Start(owner), "a", t) && "a" in t.s.registered && "a" in t.s.actors && t.due == []
    ensures 1 !in t.s.actors["a"].st.players && 1 in HearAll(map[], t.heard)
  {
    var t1 := TwoJoinsQueued(owner, "a", Config("t", 0, Replace, 0));
    var t2 := BothRan(t1, "a", 1, 2);
    t := LastIsHeardFirst(t2, "a", 1, 2, owner(1));
    LeadsTrans(Start(owner), "a", t1, t2);
    LeadsTrans(Start(owner), "a", t2, t);
  }
}
