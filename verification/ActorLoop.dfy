/**
 The actor itself: a bounded inbox of closures, the loop that runs them one at a time, and the
 callers of `do`, each waiting for its closure to finish or for the context to be done.
 */
module ActorLoop {
  import opened Base
  import opened RoomModel

  const INBOX_CAPACITY := 64

  type CallId = nat

  /** A call of `do`: blocked on the inbox, waiting for its closure, or back with its result. */
  datatype Call = Sending | Waiting | Returned(ran: bool)

  datatype Loop = Selecting | Running(id: CallId) | Ticking | Closing | Stopped

  /** What an observer of the actor sees begin and end. */
  datatype Event = Begin(id: CallId) | End(id: CallId) | TickBegin | TickEnd | CloseBegin | CloseEnd

  /** submitted holds every closure the inbox accepted, in order; the first taken of them have left it. */
  datatype State = State(
    calls: map<CallId, Call>,
    submitted: seq<CallId>,
    taken: nat,
    finished: set<CallId>,
    loop: Loop,
    cancelled: bool,
    log: seq<Event>)

  datatype Step =
    | Submit(id: CallId)
    | Send(id: CallId)
    | TakeClosure
    | FinishClosure
    | StartTick
    | FinishTick
    | CancelContext
    | StartClose
    | FinishClose
    | ReturnRan(id: CallId)
    | ReturnDone(id: CallId)

  const INIT: State := State(map[], [], 0, {}, Selecting, false, [])

  predicate Enabled(s: State, step: Step) {
    match step
    case Submit(id) => id !in s.calls
    case Send(id) => id in s.calls && s.calls[id] == Sending && |s.submitted| - s.taken < INBOX_CAPACITY
    case TakeClosure => s.loop == Selecting && s.taken < |s.submitted|
    case FinishClosure => s.loop.Running?
    case StartTick => s.loop == Selecting
    case FinishTick => s.loop == Ticking
    case CancelContext => true
    case StartClose => s.loop == Selecting && s.cancelled
    case FinishClose => s.loop == Closing
    case ReturnRan(id) => id in s.calls && s.calls[id] == Waiting && id in s.finished
    case ReturnDone(id) => id in s.calls && s.calls[id] in {Sending, Waiting} && s.cancelled
  }

  function Apply(s: State, step: Step): (after: State)
    requires Enabled(s, step)
  {
    match step
    case Submit(id) => s.(calls := s.calls[id := Sending])
    case Send(id) => s.(calls := s.calls[id := Waiting], submitted := s.submitted + [id])
    case TakeClosure =>
      var id := s.submitted[s.taken];
      s.(loop := Running(id), taken := s.taken + 1, log := s.log + [Begin(id)])
    case FinishClosure =>
      s.(loop := Selecting, finished := s.finished + {s.loop.id}, log := s.log + [End(s.loop.id)])
    case StartTick => s.(loop := Ticking, log := s.log + [TickBegin])
    case FinishTick => s.(loop := Selecting, log := s.log + [TickEnd])
    case CancelContext => s.(cancelled := true)
    case StartClose => s.(loop := Closing, log := s.log + [CloseBegin])
    case FinishClose => s.(loop := Stopped, log := s.log + [CloseEnd])
    case ReturnRan(id) => s.(calls := s.calls[id := Returned(true)])
    case ReturnDone(id) => s.(calls := s.calls[id := Returned(false)])
  }

  /** A step that is not enabled is skipped. */
  function Exec(s: State, steps: seq<Step>): (after: State)
    decreases |steps|
  {
    if steps == [] then s
    else Exec(if Enabled(s, steps[0]) then Apply(s, steps[0]) else s, steps[1..])
  }

  /** The closures that began, in the order they did. */
  function Began(log: seq<Event>): (r: seq<CallId>) {
    if log == [] then []
    else Began(log[..|log| - 1]) + match log[|log| - 1] case Begin(id) => [id] case _ => []
  }

  predicate Opens(e: Event) {
    e.Begin? || e.TickBegin? || e.CloseBegin?
  }

  /** f may come right after e: an activity is followed by its own end, and nothing follows a close. */
  predicate Follows(e: Event, f: Event) {
    match e
    case Begin(id) => f == End(id)
    case TickBegin => f == TickEnd
    case CloseBegin => f == CloseEnd
    case CloseEnd => false
    case _ => Opens(f)
  }

  /** Each activity ends before another begins; closing is the last one. */
  ghost predicate Serial(log: seq<Event>) {
    && (log != [] ==> Opens(log[0]))
    && forall i, j :: 0 <= i < |log| && j == i + 1 < |log| ==> Follows(log[i], log[j])
  }

  /** The loop is where the last event of the log put it. */
  ghost predicate LoopMatches(log: seq<Event>, loop: Loop) {
    loop == if log == [] then Selecting
            else match log[|log| - 1]
                 case Begin(id) => Running(id)
                 case TickBegin => Ticking
                 case CloseBegin => Closing
                 case CloseEnd => Stopped
                 case _ => Selecting
  }

  ghost predicate Distinct(ids: seq<CallId>) {
    forall i, j :: 0 <= i < j < |ids| ==> ids[i] != ids[j]
  }

  ghost predicate LogOk(s: State) {
    && s.taken <= |s.submitted|
    && Began(s.log) == s.submitted[..s.taken]
    && Serial(s.log) && LoopMatches(s.log, s.loop)
  }

  ghost predicate CallsOk(s: State) {
    && Distinct(s.submitted)
    && (forall id :: id in s.submitted ==> id in s.calls && s.calls[id] != Sending)
    && (forall id :: id in s.finished <==> End(id) in s.log)
    && (forall id :: id in s.calls && s.calls[id] == Waiting ==> id in s.submitted)
    && s.taken <= |s.submitted| <= s.taken + INBOX_CAPACITY
    && (forall id :: id in s.calls && s.calls[id] == Returned(true) ==> End(id) in s.log)
    && (forall id :: id in s.calls && s.calls[id] == Returned(false) ==> s.cancelled)
    && (CloseBegin in s.log || s.loop.Closing? || s.loop.Stopped? ==> s.cancelled)
  }

  lemma BeganAppend(log: seq<Event>, e: Event)
    ensures Began(log + [e]) == Began(log) + match e case Begin(id) => [id] case _ => []
  {
    assert (log + [e])[..|log|] == log;
  }

  lemma SerialAppend(log: seq<Event>, e: Event)
    requires Serial(log) && (if log == [] then Opens(e) else Follows(log[|log| - 1], e))
    ensures Serial(log + [e])
  {
    var log' := log + [e];
    forall i, j | 0 <= i < |log'| && j == i + 1 < |log'| ensures Follows(log'[i], log'[j]) {
      if j < |log| {
        assert Follows(log[i], log[j]);
      }
    }
  }

  lemma BeganIsTaken(log: seq<Event>, e: Event, submitted: seq<CallId>, taken: nat)
    requires taken <= |submitted| && Began(log) == submitted[..taken]
    requires e.Begin? ==> taken < |submitted| && e.id == submitted[taken]
    ensures Began(log + [e]) == submitted[..if e.Begin? then taken + 1 else taken]
  {
    BeganAppend(log, e);
  }

  /** The loop notes an event that may follow, and is where that event puts it. */
  lemma EventKeepsLogOk(s: State, s': State, e: Event)
    requires LogOk(s) && s'.log == s.log + [e] && s'.submitted == s.submitted
    requires if s.log == [] then Opens(e) else Follows(s.log[|s.log| - 1], e)
    requires LoopMatches(s.log + [e], s'.loop)
    requires match e
             case Begin(id) => s.taken < |s.submitted| && s'.taken == s.taken + 1 && id == s.submitted[s.taken]
             case _ => s'.taken == s.taken
    ensures LogOk(s')
  {
    BeganIsTaken(s.log, e, s.submitted, s.taken);
    SerialAppend(s.log, e);
  }

  /** A step the loop has no part in. */
  lemma CallerKeepsLogOk(s: State, s': State)
    requires LogOk(s) && s'.log == s.log && s'.loop == s.loop && s'.taken == s.taken && s.submitted <= s'.submitted
    ensures LogOk(s')
  {
    assert s'.submitted[..s.taken] == s.submitted[..s.taken];
  }

  lemma StepKeepsLogOk(s: State, step: Step)
    requires LogOk(s) && Enabled(s, step)
    ensures LogOk(Apply(s, step))
  {
    var s' := Apply(s, step);
    match step
    case TakeClosure => EventKeepsLogOk(s, s', Begin(s.submitted[s.taken]));
    case FinishClosure => EventKeepsLogOk(s, s', End(s.loop.id));
    case StartTick => EventKeepsLogOk(s, s', TickBegin);
    case FinishTick => EventKeepsLogOk(s, s', TickEnd);
    case StartClose => EventKeepsLogOk(s, s', CloseBegin);
    case FinishClose => EventKeepsLogOk(s, s', CloseEnd);
    case _ => CallerKeepsLogOk(s, s');
  }

  lemma StepKeepsCallsOk(s: State, step: Step)
    requires CallsOk(s) && Enabled(s, step)
    ensures CallsOk(Apply(s, step))
  {
    var s' := Apply(s, step);
    assert forall f :: f in s.log ==> f in s'.log;
  }

  lemma {:induction false} RunsKeepOk(s: State, steps: seq<Step>)
    requires LogOk(s) && CallsOk(s)
    ensures LogOk(Exec(s, steps)) && CallsOk(Exec(s, steps))
    decreases |steps|
  {
    if steps == [] {
    } else {
      if Enabled(s, steps[0]) {
        StepKeepsLogOk(s, steps[0]);
        StepKeepsCallsOk(s, steps[0]);
      }
      RunsKeepOk(if Enabled(s, steps[0]) then Apply(s, steps[0]) else s, steps[1..]);
    }
  }

  lemma EndIsLast(log: seq<Event>)
    requires Serial(log)
    ensures forall i :: 0 <= i < |log| - 1 ==> log[i] != CloseEnd
  {
    forall i | 0 <= i < |log| - 1 ensures log[i] != CloseEnd {
      assert Follows(log[i], log[i + 1]);
    }
  }

  /**
   The actor protocol, in every interleaving: the closures that began are the first ones the inbox
   accepted, in its order, each once; nothing begins before what began last has ended; once
   closing begins only its end follows, and it begins at most once; a call that reported its
   closure ran did see it end; and a call reports otherwise only after the context was done.
   */
  lemma ActorProtocol(steps: seq<Step>)
    ensures var s := Exec(INIT, steps);
            && Began(s.log) <= s.submitted && Distinct(Began(s.log))
            && Serial(s.log)
            && (forall i, j :: 0 <= i < j < |s.log| && s.log[i] == CloseBegin ==> j == i + 1 && s.log[j] == CloseEnd)
            && (forall id :: id in s.calls && s.calls[id] == Returned(true) ==> End(id) in s.log)
            && (forall id :: id in s.calls && s.calls[id] == Returned(false) ==> s.cancelled)
            && (s.loop == Stopped ==> s.cancelled)
  {
    var s := Exec(INIT, steps);
    RunsKeepOk(INIT, steps);
    EndIsLast(s.log);
    forall i, j | 0 <= i < j < |s.log| && s.log[i] == CloseBegin ensures j == i + 1 && s.log[j] == CloseEnd {
      assert Follows(s.log[i], s.log[i + 1]);
    }
    if s.loop == Stopped {
      assert s.log[|s.log| - 1] == CloseEnd;
      if |s.log| > 1 {
        assert Follows(s.log[|s.log| - 2], s.log[|s.log| - 1]);
      }
    }
  }

  lemma {:induction false} ExecAppend(s: State, first: seq<Step>, second: seq<Step>)
    ensures Exec(s, first + second) == Exec(Exec(s, first), second)
    decreases |first|
  {
    if first == [] {
      assert first + second == second;
    } else {
      assert (first + second)[1..] == first[1..] + second;
      ExecAppend(if Enabled(s, first[0]) then Apply(s, first[0]) else s, first[1..], second);
    }
  }

  /** A caller that looks after the context is done may be told so, whether or not its closure ran. */
  lemma DoneBeforeLooking(s: State, id: CallId)
    requires id in s.calls && s.calls[id] == Waiting
    ensures var s' := Exec(s, [CancelContext, ReturnDone(id)]);
            id in s'.calls && s'.calls[id] == Returned(false) && s'.log == s.log
  {
    var s1 := Apply(s, CancelContext);
    assert [CancelContext, ReturnDone(id)][1..] == [ReturnDone(id)] && [ReturnDone(id)][1..] == [];
    assert Exec(s1, [ReturnDone(id)]) == Apply(s1, ReturnDone(id));
  }

  /** A call whose closure ran and that has not looked yet. */
  lemma ClosureRan() returns (steps: seq<Step>)
    ensures var s := Exec(INIT, steps);
            0 in s.calls && s.calls[0] == Waiting && End(0) in s.log
  {
    steps := [Submit(0), Send(0), TakeClosure, FinishClosure];
    var s1 := Apply(INIT, Submit(0));
    var s2 := Apply(s1, Send(0));
    var s3 := Apply(s2, TakeClosure);
    var s4 := Apply(s3, FinishClosure);
    assert steps[1..] == [Send(0), TakeClosure, FinishClosure];
    assert steps[1..][1..] == [TakeClosure, FinishClosure];
    assert Exec(s2, [TakeClosure, FinishClosure]) == s4;
    assert Exec(INIT, steps) == s4;
  }

  /** A call can report false although its closure ran: the context was done before it looked. */
  lemma FalseAlthoughRan()
    ensures exists steps ::
              var s := Exec(INIT, steps);
              0 in s.calls && s.calls[0] == Returned(false) && End(0) in s.log
  {
    var steps := ClosureRan();
    DoneBeforeLooking(Exec(INIT, steps), 0);
    ExecAppend(INIT, steps, [CancelContext, ReturnDone(0)]);
  }

  // ---------------------------------------------------------------- closures as atomic actions

  /** The closures that ended, in the order they did. */
  function Ended(log: seq<Event>): (ids: seq<CallId>) {
    if log == [] then []
    else Ended(log[..|log| - 1]) + match log[|log| - 1] case End(id) => [id] case _ => []
  }

  /** All that began have ended, but for the one the loop is running. */
  lemma {:induction false} EndedAreBegan(log: seq<Event>)
    requires Serial(log)
    ensures Began(log) == if log != [] && log[|log| - 1].Begin? then Ended(log) + [log[|log| - 1].id] else Ended(log)
  {
    if log == [] {
    } else {
      var front, e := log[..|log| - 1], log[|log| - 1];
      assert Serial(front) by {
        forall i, j | 0 <= i < |front| && j == i + 1 < |front| ensures Follows(front[i], front[j]) {
          assert Follows(log[i], log[j]);
        }
      }
      EndedAreBegan(front);
      if front != [] {
        assert Follows(log[|log| - 2], log[|log| - 1]);
      }
    }
  }

  /** A room's state, if every closure does its work by the time it ends. */
  function Replay(r: RoomState, log: seq<Event>, work: CallId -> Action): (r': RoomState) {
    if log == [] then r
    else
      var before := Replay(r, log[..|log| - 1], work);
      match log[|log| - 1]
      case End(id) => Act(before, work(id))
      case _ => before
  }

  function Works(ids: seq<CallId>, work: CallId -> Action): (actions: seq<Action>)
    ensures |actions| == |ids|
  {
    seq(|ids|, i requires 0 <= i < |ids| => work(ids[i]))
  }

  lemma {:induction false} RunActionsAppend(r: RoomState, actions: seq<Action>, a: Action)
    ensures RunActions(r, actions + [a]) == Act(RunActions(r, actions), a)
    decreases |actions|
  {
    if actions == [] {
      assert ([] + [a])[1..] == [];
    } else {
      assert (actions + [a])[1..] == actions[1..] + [a];
      RunActionsAppend(Act(r, actions[0]), actions[1..], a);
    }
  }

  lemma {:induction false} ReplayIsRunActions(r: RoomState, log: seq<Event>, work: CallId -> Action)
    ensures Replay(r, log, work) == RunActions(r, Works(Ended(log), work))
  {
    if log == [] {
      assert Works([], work) == [];
    } else {
      ReplayIsRunActions(r, log[..|log| - 1], work);
      if log[|log| - 1].End? {
        var ids := Ended(log[..|log| - 1]);
        assert Works(ids + [log[|log| - 1].id], work) == Works(ids, work) + [work(log[|log| - 1].id)];
        RunActionsAppend(r, Works(ids, work), work(log[|log| - 1].id));
      } else {
        assert Ended(log) == Ended(log[..|log| - 1]);
      }
    }
  }

  /** The closures that ended are those taken, but for the one that is running. */
  lemma EndedAreTaken(s: State)
    requires LogOk(s)
    ensures var n := if s.loop.Running? then s.taken - 1 else s.taken;
            0 <= n <= |s.submitted| && Ended(s.log) == s.submitted[..n]
  {
    EndedAreBegan(s.log);
    if s.loop.Running? {
      assert Ended(s.log) == Began(s.log)[..|Ended(s.log)|];
    }
  }

  /**
   So whatever the loop interleaves with, a room's state is that of its closures run one at a time,
   as wholes, in inbox order: the closures are the atomic actions of the room model.
   */
  lemma ClosuresAreAtomic(steps: seq<Step>, r: RoomState, work: CallId -> Action)
    ensures var s := Exec(INIT, steps);
            var n := if s.loop.Running? then s.taken - 1 else s.taken;
            && 0 <= n <= |s.submitted|
            && Replay(r, s.log, work) == RunActions(r, Works(s.submitted[..n], work))
  {
    var s := Exec(INIT, steps);
    RunsKeepOk(INIT, steps);
    EndedAreTaken(s);
    ReplayIsRunActions(r, s.log, work);
  }

  // ---------------------------------------------------------------- every call returns

  /** The caller is released exactly when its closure ended: it can learn that it ran, and only then. */
  lemma ReleasedExactly(steps: seq<Step>, id: CallId)
    requires var s := Exec(INIT, steps); id in s.calls && s.calls[id] == Waiting
    ensures var s := Exec(INIT, steps);
            var s' := Exec(s, [ReturnRan(id)]);
            id in s'.calls && (s'.calls[id] == Returned(true) <==> End(id) in s.log)
  {
    RunsKeepOk(INIT, steps);
    assert [ReturnRan(id)][1..] == [];
  }

  /** Some step makes e the next thing that is seen. */
  ghost predicate CanBegin(s: State, e: Event) {
    exists step :: Enabled(s, step) && Apply(s, step).log == s.log + [e]
  }

  /** The oldest closure that has not ended, a tick, or, once the room is shut down, its end. */
  ghost predicate Ready(s: State, e: Event) {
    match e
    case Begin(id) => |Ended(s.log)| < |s.submitted| && id == s.submitted[|Ended(s.log)|]
    case TickBegin => true
    case CloseBegin => s.cancelled
    case _ => false
  }

  lemma ReadyBegins(s: State, e: Event)
    requires s.loop == Selecting && |Ended(s.log)| == s.taken && Ready(s, e)
    ensures CanBegin(s, e)
  {
    var step := match e case Begin(_) => TakeClosure case TickBegin => StartTick case _ => StartClose;
    assert Enabled(s, step) && Apply(s, step).log == s.log + [e];
  }

  lemma OnlyReadyBegins(s: State, step: Step, e: Event)
    requires s.loop == Selecting && |Ended(s.log)| == s.taken
    requires Enabled(s, step) && Apply(s, step).log == s.log + [e]
    ensures Ready(s, e)
  {
    assert (s.log + [e])[|s.log|] == e;
  }

  /**
   What can begin between two activities is exactly what is ready: a shutdown does not by itself keep a
   queued closure or a tick from coming first.
   */
  lemma SelectsExactly(steps: seq<Step>, e: Event)
    requires Exec(INIT, steps).loop == Selecting
    ensures CanBegin(Exec(INIT, steps), e) <==> Ready(Exec(INIT, steps), e)
  {
    var s := Exec(INIT, steps);
    RunsKeepOk(INIT, steps);
    EndedAreTaken(s);
    if Ready(s, e) {
      ReadyBegins(s, e);
    }
    if CanBegin(s, e) {
      var step :| Enabled(s, step) && Apply(s, step).log == s.log + [e];
      OnlyReadyBegins(s, step, e);
    }
  }

  /** The inbox holds at most 64 closures, and a sender is blocked exactly while it holds that many. */
  lemma InboxIsBounded(steps: seq<Step>, id: CallId)
    ensures var s := Exec(INIT, steps);
            && s.taken <= |s.submitted| <= s.taken + 64
            && (id in s.calls && s.calls[id] == Sending ==>
                  (Enabled(s, Send(id)) <==> |s.submitted| < s.taken + 64))
  {
    RunsKeepOk(INIT, steps);
  }

  /** A call of `do` on a room that is shut down can begin, and can return false with nothing run. */
  lemma DoAfterShutdown(steps: seq<Step>, id: CallId)
    requires Exec(INIT, steps).cancelled && id !in Exec(INIT, steps).calls
    ensures var s := Exec(INIT, steps);
            var s' := Exec(s, [Submit(id), ReturnDone(id)]);
            s' == s.(calls := s.calls[id := Returned(false)])
  {
    var s := Exec(INIT, steps);
    var s1 := Apply(s, Submit(id));
    assert [Submit(id), ReturnDone(id)][1..] == [ReturnDone(id)] && [ReturnDone(id)][1..] == [];
    assert Exec(s1, [ReturnDone(id)]) == Apply(s1, ReturnDone(id));
    assert s.calls[id := Sending][id := Returned(false)] == s.calls[id := Returned(false)];
  }

  ghost predicate Leads(s: State, s': State) {
    exists steps :: Exec(s, steps) == s'
  }

  lemma LeadsByStep(s: State, step: Step)
    requires Enabled(s, step)
    ensures Leads(s, Apply(s, step))
  {
    assert [step][1..] == [];
    assert Exec(s, [step]) == Apply(s, step);
  }

  lemma LeadsTrans(s: State, s': State, s'': State)
    requires Leads(s, s') && Leads(s', s'')
    ensures Leads(s, s'')
  {
    var first :| Exec(s, first) == s';
    var second :| Exec(s', second) == s'';
    ExecAppend(s, first, second);
  }

  ghost predicate Ok(s: State) {
    LogOk(s) && CallsOk(s)
  }

  lemma StepKeepsOk(s: State, step: Step)
    requires Ok(s) && Enabled(s, step)
    ensures Ok(Apply(s, step))
  {
    StepKeepsLogOk(s, step);
    StepKeepsCallsOk(s, step);
  }

  /** The loop ends what it is doing; the context is not touched. */
  lemma LoopSelects(s: State) returns (s': State)
    requires Ok(s) && !s.cancelled
    ensures Leads(s, s') && Ok(s') && s'.loop == Selecting && !s'.cancelled
    ensures s'.calls == s.calls && s'.submitted == s.submitted && s'.taken == s.taken
  {
    match s.loop
    case Selecting =>
      assert Exec(s, []) == s;
      s' := s;
    case Running(_) =>
      LeadsByStep(s, FinishClosure);
      StepKeepsOk(s, FinishClosure);
      s' := Apply(s, FinishClosure);
    case Ticking =>
      LeadsByStep(s, FinishTick);
      StepKeepsOk(s, FinishTick);
      s' := Apply(s, FinishTick);
  }

  lemma {:induction false} EndedInLog(log: seq<Event>, id: CallId)
    ensures id in Ended(log) <==> End(id) in log
  {
    if log == [] {
    } else {
      var front, e := log[..|log| - 1], log[|log| - 1];
      assert log == front + [e];
      EndedInLog(front, id);
    }
  }

  /** While the loop selects, the closures that left the inbox are those that ended. */
  lemma TakenHaveEnded(s: State, id: CallId)
    requires Ok(s) && s.loop == Selecting && id in s.submitted[..s.taken]
    ensures End(id) in s.log
  {
    EndedAreTaken(s);
    EndedInLog(s.log, id);
  }

  /** The loop takes and runs closures until one that waits in the inbox has ended. */
  lemma {:induction false} InboxIsServed(s: State, id: CallId) returns (s': State)
    requires Ok(s) && !s.cancelled && id in s.submitted
    ensures Leads(s, s') && Ok(s') && !s'.cancelled && s'.calls == s.calls && End(id) in s'.log
    decreases |s.submitted| - s.taken
  {
    var s1 := LoopSelects(s);
    assert s1.submitted[..|s1.submitted|] == s1.submitted;
    if id in s1.submitted[..s1.taken] {
      TakenHaveEnded(s1, id);
      s' := s1;
    } else {
      LeadsByStep(s1, TakeClosure);
      StepKeepsOk(s1, TakeClosure);
      var s2 := Apply(s1, TakeClosure);
      LeadsTrans(s, s1, s2);
      s' := InboxIsServed(s2, id);
      LeadsTrans(s, s2, s');
    }
  }

  /** In a room that is not shut down, a call in the inbox can always come to report that its closure ran. */
  lemma WaitingCallReturns(s: State, id: CallId) returns (s': State)
    requires Ok(s) && !s.cancelled && id in s.calls && s.calls[id] == Waiting
    ensures Leads(s, s') && Ok(s') && !s'.cancelled && s'.calls == s.calls[id := Returned(true)]
  {
    var s1 := InboxIsServed(s, id);
    LeadsByStep(s1, ReturnRan(id));
    StepKeepsOk(s1, ReturnRan(id));
    s' := Apply(s1, ReturnRan(id));
    LeadsTrans(s, s1, s');
  }

  /** A blocked sender finds room once the loop has taken a closure. */
  lemma SenderIsAdmitted(s: State, id: CallId) returns (s': State)
    requires Ok(s) && !s.cancelled && id in s.calls && s.calls[id] == Sending
    ensures Leads(s, s') && Ok(s') && !s'.cancelled && s'.calls == s.calls[id := Waiting]
  {
    var s1 := LoopSelects(s);
    var s2 := s1;
    if |s1.submitted| - s1.taken >= INBOX_CAPACITY {
      LeadsByStep(s1, TakeClosure);
      StepKeepsOk(s1, TakeClosure);
      s2 := Apply(s1, TakeClosure);
      LeadsTrans(s, s1, s2);
    }
    LeadsByStep(s2, Send(id));
    StepKeepsOk(s2, Send(id));
    s' := Apply(s2, Send(id));
    LeadsTrans(s, s2, s');
  }

  /**
   No call of `do` hangs: from every reachable state, a call that has not returned can come to do so;
   true while the context is not done, and false at once when it is.
   */
  lemma EveryCallReturns(steps: seq<Step>, id: CallId) returns (s': State)
    requires var s := Exec(INIT, steps); id in s.calls && !s.calls[id].Returned?
    ensures var s := Exec(INIT, steps);
            && Leads(s, s') && s'.cancelled == s.cancelled
            && id in s'.calls && s'.calls[id] == Returned(!s.cancelled)
  {
    var s := Exec(INIT, steps);
    RunsKeepOk(INIT, steps);
    if s.cancelled {
      LeadsByStep(s, ReturnDone(id));
      s' := Apply(s, ReturnDone(id));
    } else if s.calls[id] == Sending {
      var s1 := SenderIsAdmitted(s, id);
      s' := WaitingCallReturns(s1, id);
      LeadsTrans(s, s1, s');
    } else {
      s' := WaitingCallReturns(s, id);
    }
  }

  lemma StepEnds(s: State, step: Step) returns (s': State)
    requires Enabled(s, step)
    ensures Leads(s, s') && s' == Apply(s, step)
  {
    LeadsByStep(s, step);
    s' := Apply(s, step);
  }

  /**
   Shutdown can wait for the loop: once the context is done the loop can stop from every reachable
   state, with OnClose run.
   */
  lemma ShutdownEnds(steps: seq<Step>) returns (s': State)
    requires Exec(INIT, steps).cancelled
    ensures Leads(Exec(INIT, steps), s') && s'.loop == Stopped && CloseEnd in s'.log
  {
    var s := Exec(INIT, steps);
    RunsKeepOk(INIT, steps);
    var s1 := s;
    assert Exec(s, []) == s;
    if s.loop.Running? {
      s1 := StepEnds(s, FinishClosure);
    } else if s.loop.Ticking? {
      s1 := StepEnds(s, FinishTick);
    }
    var s2 := s1;
    if s1.loop.Selecting? {
      s2 := StepEnds(s1, StartClose);
      LeadsTrans(s, s1, s2);
    }
    s' := s2;
    if s2.loop.Closing? {
      s' := StepEnds(s2, FinishClose);
      LeadsTrans(s, s2, s');
    }
  }

  /** From scratch: a call in a room that is not shut down reports that its closure ran. */
  lemma TrueFromScratch() returns (s: State)
    ensures Leads(INIT, s) && !s.cancelled && 0 in s.calls && s.calls[0] == Returned(true) && End(0) in s.log
  {
    var steps := [Submit(0)];
    assert steps[1..] == [];
    assert Exec(INIT, steps) == Apply(INIT, Submit(0));
    s := EveryCallReturns(steps, 0);
    LeadsTrans(INIT, Exec(INIT, steps), s);
    var all :| Exec(INIT, all) == s;
    RunsKeepOk(INIT, all);
  }
}
