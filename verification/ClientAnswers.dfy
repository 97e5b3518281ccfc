/**
 Which messages of a connection get through, what each of them is answered, and that nothing can be
 stuck: every message handed over can be handled, every queued frame written, every connection ended.
 */
module ClientAnswers {
  import opened Base
  import opened ClientQueues

  // ---------------------------------------------------------------- arrivals

  /** A frame the read loop read, with whether somebody had logged in by then. */
  datatype Heard = Heard(a: Arrival, loggedIn: bool)

  ghost function HeardAt(s: State, step: Step): (log: seq<Heard>) {
    if step.ByReader? && step.r.Arrive? then [Heard(step.r.a, s.session.Some?)] else []
  }

  /** Everything the read loop reads in a run. */
  ghost function Arrivals(s: State, steps: seq<Step>): (log: seq<Heard>)
    decreases |steps|
  {
    if steps == [] || !Enabled(s, steps[0]) then []
    else HeardAt(s, steps[0]) + Arrivals(Next(s, steps[0]), steps[1..])
  }

  /** A message passes if it is no ping, and asks to log in or comes from somebody who has. */
  ghost predicate Passes(h: Heard) {
    h.a.Decoded? && !h.a.m.kind.Ping? && (h.a.m.kind.Auth? || h.loggedIn)
  }

  ghost function Passing(log: seq<Heard>): (ms: seq<Message>) {
    if log == [] then [] else (if Passes(log[0]) then [log[0].a.m] else []) + Passing(log[1..])
  }

  /**
   The acceptance rule, both ways: a message is handed over if and only if it passes, a ping is
   answered with the pong of its id, and everything else is refused.
   */
  lemma ArrivalExactly(s: State, a: Arrival)
    requires s.reader.Reading?
    ensures Enabled(s, ByReader(Arrive(a)))
    ensures var s' := Next(s, ByReader(Arrive(a)));
            && s' == s.(reader := s'.reader)
            && (!a.Decoded? ==> s'.reader == Offering(Failure(0, 400)))
            && (a.Decoded? ==>
                  && (s'.reader == Pushing(a.m) <==> Passes(Heard(a, s.session.Some?)))
                  && (s'.reader == Offering(Pong(a.m.id)) <==> a.m.kind.Ping?)
                  && (s'.reader == Offering(Failure(a.m.id, 401)) <==>
                      s.session.None? && a.m.kind in {Subscribe, Unsubscribe, Request, Unknown}))
  {}

  /** The reply goes out, if there is room, before the next frame is read. */
  lemma ReplyIsQueued(s: State)
    requires s.reader.Offering? && |s.queue| < s.cap
    ensures var step := ByReader(OfferReply(Enqueue));
            && Enabled(s, step)
            && var s' := Next(s, step);
               && s'.reader == Reading && s'.queue == s.queue + [s.reader.frame]
               && s'.enqueued == s.enqueued + [s.reader.frame]
               && s'.accepted == s.accepted && s'.handles == s.handles && s'.closed == s.closed
  {}

  /** A message that passed goes to the end of the handle queue while fewer than 64 wait there. */
  lemma PushExactly(s: State)
    requires s.reader.Pushing?
    ensures Enabled(s, ByReader(Push)) <==> |s.handles| < 64
    ensures Enabled(s, ByReader(SeeClosed)) <==> s.closed
    ensures Enabled(s, ByReader(Push)) ==>
              var s' := Next(s, ByReader(Push));
              && s'.handles == s.handles + [s.reader.m] && s'.accepted == s.accepted + [s.reader.m]
              && s'.reader == Reading && s'.queue == s.queue && s'.closed == s.closed
  {}

  function Held(r: Reader): (ms: seq<Message>) {
    if r.Pushing? then [r.m] else []
  }

  lemma ClosedStays(s: State, step: Step)
    requires Enabled(s, step)
    ensures s.closed ==> Next(s, step).closed
  {}

  ghost predicate Gone(r: Reader) {
    r.Leaving? || r.Left?
  }

  lemma OthersKeepReader(s: State, step: Step)
    requires Enabled(s, step) && !step.ByReader?
    ensures Next(s, step).reader == s.reader && Next(s, step).accepted == s.accepted
  {
    if step.ByHandler? {
      HandlerKeepsReader(s, step.h);
    }
  }

  lemma HandlerKeepsReader(s: State, h: HandleStep)
    requires HandleEnabled(s, h)
    ensures HandleNext(s, h).reader == s.reader && HandleNext(s, h).accepted == s.accepted
  {}

  /** A read loop that is leaving reads no more. */
  lemma {:induction false} GoneReadsNothing(s: State, steps: seq<Step>, s': State)
    requires Run(s, steps, s') && Gone(s.reader)
    ensures Arrivals(s, steps) == [] && s'.accepted == s.accepted && Gone(s'.reader) && (s.closed ==> s'.closed)
    decreases |steps|
  {
    if steps == [] {
    } else {
      ClosedStays(s, steps[0]);
      if !steps[0].ByReader? {
        OthersKeepReader(s, steps[0]);
      }
      GoneReadsNothing(Next(s, steps[0]), steps[1..], s');
    }
  }

  /** What the read loop has taken on: handed over, or still in its hands. */
  ghost function Taken(s: State): (ms: seq<Message>) {
    s.accepted + Held(s.reader)
  }

  /** The read loop gives up the message it holds. */
  ghost predicate DropsAt(s: State, step: Step) {
    s.reader.Pushing? && step.ByReader? && step.r.SeeClosed?
  }

  /** One step hands over what passes, unless the client was closed meanwhile. */
  lemma HandOver(s: State, step: Step)
    requires Enabled(s, step)
    ensures var s' := Next(s, step);
            if DropsAt(s, step)
            then
              && Taken(s) == Taken(s') + [s.reader.m] && HeardAt(s, step) == []
              && Gone(s'.reader) && s.closed && s'.closed
            else Taken(s') == Taken(s) + Passing(HeardAt(s, step))
  {
    if !step.ByReader? {
      OthersKeepReader(s, step);
    } else if step.r.Arrive? {
      assert HeardAt(s, step)[1..] == [];
    }
  }

  lemma PassingHead(b: seq<Heard>, c: seq<Heard>)
    requires |b| <= 1
    ensures Passing(b + c) == Passing(b) + Passing(c)
  {
    if b == [] {
      assert b + c == c;
    } else {
      assert b[1..] == [] && (b + c)[1..] == c;
    }
  }

  lemma Joined(a: seq<Message>, b: seq<Heard>, c: seq<Heard>)
    requires |b| <= 1
    ensures a + Passing(b + c) == (a + Passing(b)) + Passing(c)
  {
    PassingHead(b, c);
  }

  lemma {:induction false} HandedOver(s: State, steps: seq<Step>, s': State) returns (dropped: seq<Message>)
    requires Run(s, steps, s')
    ensures Taken(s) + Passing(Arrivals(s, steps)) == Taken(s') + dropped
    ensures dropped == [] || (|dropped| == 1 && s'.closed && Gone(s'.reader))
    decreases |steps|
  {
    if steps == [] {
      dropped := [];
    } else {
      var s1 := Next(s, steps[0]);
      HandOver(s, steps[0]);
      if DropsAt(s, steps[0]) {
        GoneReadsNothing(s1, steps[1..], s');
        dropped := [s.reader.m];
      } else {
        Joined(Taken(s), HeardAt(s, steps[0]), Arrivals(s1, steps[1..]));
        dropped := HandedOver(s1, steps[1..], s');
      }
    }
  }

  lemma FromNothing(due: seq<Message>, accepted: seq<Message>, held: seq<Message>, dropped: seq<Message>)
    requires ([] + []) + due == (accepted + held) + dropped
    ensures due == accepted + held + dropped && accepted <= due && |due| == |accepted| + |held| + |dropped|
  {
    assert ([] + []) + due == due;
  }

  /**
   Over every run, the messages in the handle queue or past it are exactly those read that passed, in
   the order they were read, but for the last one while it waits for room. While the client is open
   nothing that passed is dropped; a closed one drops at most one, as its read loop leaves.
   */
  lemma AcceptedExactly(configured: int, steps: seq<Step>, s: State)
    requires Run(Init(configured), steps, s)
    ensures var due := Passing(Arrivals(Init(configured), steps));
            && s.accepted <= due && |due| <= |s.accepted| + 1
            && (due == s.accepted + Held(s.reader) || (s.closed && Gone(s.reader)))
  {
    var dropped := HandedOver(Init(configured), steps, s);
    FromNothing(Passing(Arrivals(Init(configured), steps)), s.accepted, Held(s.reader), dropped);
  }

  // ---------------------------------------------------------------- answers

  /** What a dispatched message can be answered, with the session after it and whether the client is then closed. */
  ghost predicate Answers(d: Dispatched, frame: Frame, after: Option<UserId>, hangUp: bool) {
    match d.m.kind
    case Auth =>
      if d.session.Some? then frame == Failure(d.m.id, 400) && !hangUp
      else if after.Some? then frame == Response(d.m.id) && !hangUp
      else frame == Failure(d.m.id, 401) && hangUp
    case Request => (frame == Response(d.m.id) || (frame.Failure? && frame.id == d.m.id)) && !hangUp
    case Unknown => frame == Failure(d.m.id, 400) && !hangUp
    case _ => false
  }

  /** The handle loop works for the message it took last, and answers that one only. */
  ghost predicate AnswersLast(s: State) {
    && (!s.handler.Waiting? && !s.handler.Finished? ==> s.dispatched != [])
    && (s.handler.Handling? || s.handler.Verifying? ==>
          var d := s.dispatched[|s.dispatched| - 1]; d.m == s.handler.m && d.session == s.session)
    && (s.handler.Verifying? ==> s.handler.m.kind.Auth? && s.session.None?)
    && (s.handler.Answering? ==>
          Answers(s.dispatched[|s.dispatched| - 1], s.handler.frame, s.session, s.handler.thenClose))
  }

  /** A loop that has ended left the client closed. */
  ghost predicate EndsClosed(s: State) {
    (s.reader.Left? ==> s.closed) && (s.handler.Finished? ==> s.closed)
  }

  lemma DispatchKeepsAnswers(s: State, failure: Option<nat>)
    requires AnswersLast(s) && Received(s) && HandleEnabled(s, Dispatch(failure))
    ensures AnswersLast(HandleNext(s, Dispatch(failure)))
  {
    var d := s.dispatched[|s.dispatched| - 1];
    assert !d.m.kind.Ping?;
  }

  lemma HandleKeepsAnswers(s: State, h: HandleStep)
    requires AnswersLast(s) && Received(s) && HandleEnabled(s, h)
    ensures AnswersLast(HandleNext(s, h))
  {
    match h
    case Dispatch(failure) => DispatchKeepsAnswers(s, failure);
    case _ =>
  }

  lemma ReadKeepsHandler(s: State, r: ReadStep)
    requires ReadEnabled(s, r)
    ensures var s' := ReadNext(s, r);
            s'.handler == s.handler && s'.dispatched == s.dispatched && s'.session == s.session
  {}

  lemma StepKeepsAnswers(s: State, step: Step)
    requires AnswersLast(s) && Received(s) && Enabled(s, step)
    ensures AnswersLast(Next(s, step))
  {
    match step
    case ByHandler(h) => HandleKeepsAnswers(s, h);
    case ByReader(r) => ReadKeepsHandler(s, r);
    case _ =>
  }

  lemma StepKeepsEndsClosed(s: State, step: Step)
    requires EndsClosed(s) && Enabled(s, step)
    ensures EndsClosed(Next(s, step)) && Next(s, step).cap == s.cap
  {
    ClosedStays(s, step);
  }

  lemma {:induction false} RunKeepsAnswers(s: State, steps: seq<Step>, s': State)
    requires AnswersLast(s) && EndsClosed(s) && Delivering(s) && Received(s) && Run(s, steps, s')
    ensures AnswersLast(s') && EndsClosed(s') && Delivering(s') && Received(s') && s'.cap == s.cap
    decreases |steps|
  {
    if steps == [] {
    } else {
      StepKeepsAnswers(s, steps[0]);
      StepKeepsEndsClosed(s, steps[0]);
      StepKeepsDelivering(s, steps[0]);
      StepKeepsReceived(s, steps[0]);
      RunKeepsAnswers(Next(s, steps[0]), steps[1..], s');
    }
  }

  lemma Reachable(configured: int, steps: seq<Step>, s: State)
    requires Run(Init(configured), steps, s)
    ensures AnswersLast(s) && EndsClosed(s) && Delivering(s) && Received(s)
    ensures s.cap == if configured > 0 then configured else 256
  {
    InitIsSound(configured);
    RunKeepsAnswers(Init(configured), steps, s);
  }

  /**
   Over every run, an answer under way is for the message dispatched last and for its id: a login gets a
   response and the session, or 401 and the client closed, or 400 if somebody had logged in; a request
   gets its response or its failure; a message of no known kind gets 400; a subscribe, an unsubscribe or
   a ping gets none. And the loops end only with the client closed.
   */
  lemma AnsweredUnderItsId(configured: int, steps: seq<Step>, s: State)
    requires Run(Init(configured), steps, s)
    ensures s.handler.Answering? ==>
              && s.dispatched != []
              && Answers(s.dispatched[|s.dispatched| - 1], s.handler.frame, s.session, s.handler.thenClose)
    ensures s.reader.Left? || s.handler.Finished? ==> s.closed
  {
    Reachable(configured, steps, s);
  }

  /** When a send finds the queue full: exactly when all the configured frames wait, 256 if none is configured. */
  lemma OverflowExactly(configured: int, steps: seq<Step>, s: State, frame: Frame, choice: Choice)
    requires Run(Init(configured), steps, s)
    ensures Enabled(s, ByOther(frame, choice)) <==>
            var full := |s.queue| == if configured > 0 then configured else 256;
            (choice.Enqueue? && !full) || (choice.Drop? && s.closed) || (choice.Overflow? && full && !s.closed)
  {
    Reachable(configured, steps, s);
  }

  /** The client is closed with the queue as it was, and the send returns without its frame. */
  ghost predicate ClosedFor(s: State, s': State, frame: Frame) {
    s'.closed && s'.queue == s.queue && s'.enqueued == s.enqueued && s'.sent == s.sent + [Sent(frame, false)]
  }

  /**
   The slow consumer is disconnected: whoever finds the queue full has nothing left to do but close the
   client, and its frame is lost. Here the read loop with a reply.
   */
  lemma ReplyOverflows(s: State, frame: Frame)
    requires s.reader == Offering(frame) && Enabled(s, ByReader(OfferReply(Overflow)))
    ensures var s1 := Next(s, ByReader(OfferReply(Overflow)));
            && (forall r :: ReadEnabled(s1, r) <==> r == CloseAfterReply)
            && var s2 := Next(s1, ByReader(CloseAfterReply));
               ClosedFor(s, s2, frame) && s2.reader == Reading
  {}

  /** The handle loop with an answer. */
  lemma AnswerOverflows(s: State, frame: Frame, thenClose: bool)
    requires s.handler == Answering(frame, thenClose) && Enabled(s, ByHandler(OfferAnswer(Overflow)))
    ensures var s1 := Next(s, ByHandler(OfferAnswer(Overflow)));
            && (forall h :: HandleEnabled(s1, h) <==> h == CloseAfterAnswer)
            && var s2 := Next(s1, ByHandler(CloseAfterAnswer));
               ClosedFor(s, s2, frame) && s2.handler == Waiting
  {}

  /** Anybody else with an event. */
  lemma EventOverflows(s: State, frame: Frame)
    requires Enabled(s, ByOther(frame, Overflow))
    ensures var s1 := Next(s, ByOther(frame, Overflow));
            && Enabled(s1, OtherCloses(frame))
            && var s2 := Next(s1, OtherCloses(frame));
               ClosedFor(s, s2, frame) && s2.closers == s.closers
  {}

  // ---------------------------------------------------------------- what can always still happen

  ghost predicate Leads(s: State, s': State) {
    exists steps :: Run(s, steps, s')
  }

  lemma LeadsNowhere(s: State)
    ensures Leads(s, s)
  {
    assert Run(s, [], s);
  }

  /** One step, and on from there. */
  lemma LeadsOn(s: State, step: Step, s': State)
    requires Enabled(s, step) && Leads(Next(s, step), s')
    ensures Leads(s, s')
  {
    var steps :| Run(Next(s, step), steps, s');
    assert ([step] + steps)[1..] == steps;
    assert Run(s, [step] + steps, s');
  }

  lemma {:induction false} LeadsFrom(s: State, first: seq<Step>, s': State, s'': State)
    requires Run(s, first, s') && Leads(s', s'')
    ensures Leads(s, s'')
    decreases |first|
  {
    if first == [] {
    } else {
      LeadsFrom(Next(s, first[0]), first[1..], s', s'');
      LeadsOn(s, first[0], s'');
    }
  }

  lemma LeadsTrans(s: State, s': State, s'': State)
    requires Leads(s, s') && Leads(s', s'')
    ensures Leads(s, s'')
  {
    var first :| Run(s, first, s');
    LeadsFrom(s, first, s', s'');
  }

  /** Of the ways a send can go, one that is open now. */
  function OpenChoice(s: State): (choice: Choice)
    ensures Offered(s, choice)
  {
    if |s.queue| < s.cap then Enqueue else if s.closed then Drop else Overflow
  }

  // ---------------------------------------------------------------- the handle loop never hangs

  /** How far the handle loop is from having nothing to do. */
  function WorkLeft(s: State): (n: nat) {
    5 * |s.handles| + match s.handler
                      case Waiting => 0
                      case Handling(_) => 4
                      case Verifying(_) => 3
                      case Answering(_, _) => 2
                      case HangingUp(_) => 1
                      case Finished => 0
  }

  function HandlerMove(s: State): (h: HandleStep) {
    match s.handler
    case Waiting => TakeMessage
    case Handling(_) => Dispatch(None)
    case Verifying(_) => Deny
    case Answering(_, _) => OfferAnswer(OpenChoice(s))
    case HangingUp(_) => CloseAfterAnswer
    case Finished => Quit
  }

  lemma HandlerMoves(s: State)
    requires !s.handler.Finished? && WorkLeft(s) > 0
    ensures HandleEnabled(s, HandlerMove(s))
    ensures var s' := HandleNext(s, HandlerMove(s));
            WorkLeft(s') < WorkLeft(s) && !s'.handler.Finished?
            && s'.accepted == s.accepted && s'.reader == s.reader
  {}

  /** The handle loop by itself, until no message is left. */
  lemma {:induction false} HandlerDrains(s: State) returns (s': State)
    requires !s.handler.Finished?
    ensures Leads(s, s') && s'.handler.Waiting? && s'.handles == []
    ensures s'.accepted == s.accepted && s'.reader == s.reader
    decreases WorkLeft(s)
  {
    if WorkLeft(s) == 0 {
      LeadsNowhere(s);
      s' := s;
    } else {
      var step := ByHandler(HandlerMove(s));
      HandlerMoves(s);
      s' := HandlerDrains(Next(s, step));
      LeadsOn(s, step, s');
    }
  }

  /**
   No message is stuck: from every reachable state of an open client, every message that passed can
   come to be dispatched and done with, the one that still waits for room included.
   */
  lemma EveryMessageIsHandled(configured: int, steps: seq<Step>, s: State) returns (s': State)
    requires Run(Init(configured), steps, s) && !s.closed
    ensures Leads(s, s') && s'.handler.Waiting? && s'.handles == []
    ensures Messages(s'.dispatched) == s'.accepted == s.accepted + Held(s.reader)
  {
    Reachable(configured, steps, s);
    s' := HandlerDrains(s);
    if s.reader.Pushing? {
      var s1 := s';
      var s2 := Next(s1, ByReader(Push));
      s' := HandlerDrains(s2);
      LeadsOn(s1, ByReader(Push), s');
      LeadsTrans(s, s1, s');
    }
    var rest :| Run(s, rest, s');
    RunKeepsAnswers(s, rest, s');
  }

  /**
   Handling one message alone, with room in the queue: what comes of it, by its kind, the session, the
   outcome of the request and the verdict on the token.
   */
  lemma HandledExactly(s: State, failure: Option<nat>, verdict: Option<UserId>) returns (s': State)
    requires s.handler.Waiting? && s.handles != [] && |s.queue| < s.cap
    ensures Leads(s, s') && s'.handler.Waiting? && s'.handles == s.handles[1..] && s'.reader == s.reader
    ensures s'.dispatched == s.dispatched + [Dispatched(s.handles[0], s.session)]
    ensures var m := s.handles[0];
            var login := m.kind.Auth? && s.session.None?;
            && s'.session == (if login && verdict.Some? then verdict else s.session)
            && s'.closed == (s.closed || (login && verdict.None?))
            && (login ==>
                  s'.enqueued == s.enqueued + [if verdict.Some? then Response(m.id) else Failure(m.id, 401)])
            && (m.kind in {Ping, Unknown} || (m.kind.Auth? && !login) ==>
                  s'.enqueued == s.enqueued + [Failure(m.id, 400)])
            && (m.kind.Request? ==>
                  s'.enqueued ==
                  s.enqueued + [if failure.Some? then Failure(m.id, failure.value) else Response(m.id)])
            && (m.kind in {Subscribe, Unsubscribe} ==> s'.enqueued == s.enqueued && s'.sent == s.sent)
  {
    var s1 := Next(s, ByHandler(TakeMessage));
    var s2 := Next(s1, ByHandler(Dispatch(failure)));
    LeadsNowhere(s2);
    LeadsOn(s1, ByHandler(Dispatch(failure)), s2);
    LeadsOn(s, ByHandler(TakeMessage), s2);
    var s3 := s2;
    if s2.handler.Verifying? {
      s3 := Verdict(s2, verdict);
      LeadsTrans(s, s2, s3);
    }
    s' := s3;
    if s3.handler.Answering? {
      s' := AnswerGoesOut(s3);
      LeadsTrans(s, s3, s');
    }
  }

  lemma Verdict(s: State, verdict: Option<UserId>) returns (s': State)
    requires s.handler.Verifying?
    ensures Leads(s, s')
    ensures s' == if verdict.Some?
                  then s.(session := verdict, logins := s.logins + [verdict.value],
                          handler := Answering(Response(s.handler.m.id), false))
                  else s.(handler := Answering(Failure(s.handler.m.id, 401), true))
  {
    var step := ByHandler(if verdict.Some? then Accept(verdict.value) else Deny);
    s' := Next(s, step);
    LeadsNowhere(s');
    LeadsOn(s, step, s');
  }

  lemma AnswerGoesOut(s: State) returns (s': State)
    requires s.handler.Answering? && |s.queue| < s.cap
    ensures Leads(s, s') && s'.handler.Waiting? && s'.enqueued == s.enqueued + [s.handler.frame]
    ensures s'.closed == (s.closed || s.handler.thenClose) && s'.session == s.session
    ensures s'.handles == s.handles && s'.dispatched == s.dispatched && s'.reader == s.reader
  {
    var s1 := Next(s, ByHandler(OfferAnswer(Enqueue)));
    s' := if s1.handler.HangingUp? then Next(s1, ByHandler(CloseAfterAnswer)) else s1;
    LeadsNowhere(s');
    if s1.handler.HangingUp? {
      LeadsOn(s1, ByHandler(CloseAfterAnswer), s');
    }
    LeadsOn(s, ByHandler(OfferAnswer(Enqueue)), s');
  }

  // ---------------------------------------------------------------- every frame can be written

  /** Every frame past the queue or in it, but those lost. */
  ghost function Outgoing(s: State): (frames: seq<Frame>) {
    s.written + InFlight(s.writer) + s.queue
  }

  function WriterMove(s: State): (w: WriteStep) {
    if s.writer.Writing? then Write else Take
  }

  lemma WriterMoves(s: State)
    requires !s.writer.Exited? && (s.writer.Writing? || s.queue != [])
    ensures WriteEnabled(s, WriterMove(s))
    ensures var s' := WriteNext(s, WriterMove(s));
            && !s'.writer.Exited? && s'.writer.flushing == s.writer.flushing && Outgoing(s') == Outgoing(s)
            && s'.enqueued == s.enqueued && s'.closed == s.closed
            && 2 * |s'.queue| + |InFlight(s'.writer)| < 2 * |s.queue| + |InFlight(s.writer)|
  {
    if s.writer.Idle? {
      assert s.queue == [s.queue[0]] + s.queue[1..];
    }
  }

  /** The write loop by itself, until the queue is empty. */
  lemma {:induction false} WriterDrains(s: State) returns (s': State)
    requires !s.writer.Exited?
    ensures Leads(s, s') && s'.writer.Idle? && s'.writer.flushing == s.writer.flushing && s'.queue == []
    ensures s'.written == Outgoing(s) && s'.enqueued == s.enqueued && s'.closed == s.closed
    ensures Aside(s, s')
    decreases 2 * |s.queue| + |InFlight(s.writer)|
  {
    if s.writer.Writing? || s.queue != [] {
      var step := ByWriter(WriterMove(s));
      WriterMoves(s);
      s' := WriterDrains(Next(s, step));
      LeadsOn(s, step, s');
    } else {
      LeadsNowhere(s);
      s' := s;
    }
  }

  /** The flush at the end. */
  lemma WriterFlushes(s: State) returns (s': State)
    requires !s.writer.Exited? && s.closed
    ensures Leads(s, s') && s'.writer == Exited(false) && s'.closed && Aside(s, s')
    ensures s'.written == Outgoing(s) && s'.enqueued == s.enqueued
  {
    var s1 := WriterDrains(s);
    var s2 := if s1.writer.flushing then s1 else Next(s1, ByWriter(SeeDone));
    s' := Next(s2, ByWriter(Drained));
    LeadsNowhere(s');
    LeadsOn(s2, ByWriter(Drained), s');
    if !s1.writer.flushing {
      LeadsOn(s1, ByWriter(SeeDone), s');
    }
    LeadsTrans(s, s1, s');
  }

  lemma AllOutgoing(s: State)
    requires Conserved(s) && !s.writer.Exited?
    ensures Outgoing(s) == s.enqueued
  {
    assert s.lost == [];
  }

  /**
   No frame is stuck: from every reachable state whose write loop still runs, every frame enqueued can
   come to be written, and if the client is closed the loop then ends.
   */
  lemma EveryFrameIsWritten(configured: int, steps: seq<Step>, s: State) returns (s': State)
    requires Run(Init(configured), steps, s) && !s.writer.Exited?
    ensures Leads(s, s') && s'.written == s'.enqueued == s.enqueued
    ensures s.closed ==> s'.writer == Exited(false)
  {
    Reachable(configured, steps, s);
    AllOutgoing(s);
    if s.closed {
      s' := WriterFlushes(s);
    } else {
      s' := WriterDrains(s);
    }
  }

  // ---------------------------------------------------------------- every connection can end

  /** How many steps the read loop is from having left. */
  function ReadLeft(r: Reader): (n: nat) {
    match r
    case Offering(_) => 4
    case Disconnecting(_) => 3
    case Pushing(_) => 3
    case Reading => 2
    case Leaving => 1
    case Left => 0
  }

  /** A read loop on its way out: once the client is closed it drops a message it holds. */
  function ReaderMove(s: State): (r: ReadStep) {
    match s.reader
    case Offering(_) => OfferReply(OpenChoice(s))
    case Disconnecting(_) => CloseAfterReply
    case Pushing(_) => SeeClosed
    case Reading => ReadError
    case _ => Exit
  }

  lemma ReaderMoves(s: State)
    requires s.closed && !s.reader.Left?
    ensures ReadEnabled(s, ReaderMove(s))
    ensures var s' := ReadNext(s, ReaderMove(s));
            ReadLeft(s'.reader) < ReadLeft(s.reader) && s'.closed && s'.writer == s.writer && s'.handler == s.handler
  {}

  lemma {:induction false} ReaderLeaves(s: State) returns (s': State)
    requires s.closed
    ensures Leads(s, s') && s'.reader.Left? && s'.closed && s'.writer == s.writer && s'.handler == s.handler
    decreases ReadLeft(s.reader)
  {
    if s.reader.Left? {
      LeadsNowhere(s);
      s' := s;
    } else {
      var step := ByReader(ReaderMove(s));
      ReaderMoves(s);
      s' := ReaderLeaves(Next(s, step));
      LeadsOn(s, step, s');
    }
  }

  lemma HandlerLeaves(s: State) returns (s': State)
    requires s.closed
    ensures Leads(s, s') && s'.handler.Finished? && s'.closed && s'.reader == s.reader
  {
    if s.handler.Finished? {
      LeadsNowhere(s);
      s' := s;
    } else {
      var s1 := HandlerDrains(s);
      var rest :| Run(s, rest, s1);
      RunStaysClosed(s, rest, s1);
      s' := Next(s1, ByHandler(Quit));
      LeadsNowhere(s');
      LeadsOn(s1, ByHandler(Quit), s');
      LeadsTrans(s, s1, s');
    }
  }

  lemma {:induction false} RunStaysClosed(s: State, steps: seq<Step>, s': State)
    requires s.closed && Run(s, steps, s')
    ensures s'.closed
    decreases |steps|
  {
    if steps == [] {
    } else {
      ClosedStays(s, steps[0]);
      RunStaysClosed(Next(s, steps[0]), steps[1..], s');
    }
  }

  /** A closed connection winds down: from every such state all three loops can come to their end. */
  lemma EveryConnectionEnds(s: State) returns (s': State)
    requires s.closed
    ensures Leads(s, s') && s'.reader.Left? && s'.handler.Finished? && s'.writer.Exited?
  {
    var s1 := ReaderLeaves(s);
    var s2 := HandlerLeaves(s1);
    LeadsTrans(s, s1, s2);
    s' := s2;
    if !s2.writer.Exited? {
      s' := WriterFlushes(s2);
      LeadsTrans(s, s2, s');
    }
  }

  /** Closing is open to everybody at any time, and takes effect once. */
  lemma ClosingTakesEffectOnce(s: State)
    ensures Enabled(s, Shutdown)
    ensures var s' := Next(s, Shutdown);
            && s'.closed && (s.closed ==> s' == s) && (!s.closed ==> s'.atClose == |s.enqueued|)
            && s'.queue == s.queue && s'.writer == s.writer && s'.written == s.written && Aside(s, s')
  {}
}
