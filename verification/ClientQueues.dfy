/**
 One connection as its goroutines see it: the send queue drained by the write loop, and the handle
 queue filled by the read loop and drained by the handle loop. Every channel operation and every
 read or write of the session is one atomic step; any number of other goroutines may send.
 */
module ClientQueues {
  import opened Base

  datatype Kind = Auth | Subscribe | Unsubscribe | Request | Ping | Unknown

  datatype Message = Message(kind: Kind, id: nat)

  /** What ReadMessage and Unmarshal make of the next frame on the wire. */
  datatype Arrival = NotBinary | Malformed | Decoded(m: Message)

  datatype Frame = Response(id: nat) | Failure(id: nat, code: nat) | Pong(id: nat) | Event(n: nat)

  /** A send that returned: whether its frame went into the queue. */
  datatype Sent = Sent(frame: Frame, queued: bool)

  /** A message the handle loop took out, with the session as it stood then. */
  datatype Dispatched = Dispatched(m: Message, session: Option<UserId>)

  /** The write loop: a frame taken from the queue is written, or lost when the connection breaks. */
  datatype Writer = Idle(flushing: bool) | Writing(frame: Frame, flushing: bool) | Exited(broken: bool)

  /** What a goroutine does while it sends: offer the frame, then Close if the queue was full. */
  datatype Reader =
    | Reading
    | Offering(frame: Frame)
    | Disconnecting(unsent: Frame)
    | Pushing(m: Message)
    | Leaving
    | Left

  datatype Handler =
    | Waiting
    | Handling(m: Message)
    | Verifying(m: Message)
    | Answering(frame: Frame, thenClose: bool)
    | HangingUp(unsent: Option<Frame>)
    | Finished

  const HANDLE_BUFFER: nat := 64

  const DEFAULT_SEND_BUFFER: nat := 256

  /** Missing tuning fields fall back to the default. */
  function SendBuffer(configured: int): (cap: nat)
    ensures cap > 0 && (configured > 0 ==> cap == configured) && (configured <= 0 ==> cap == 256)
  {
    if configured <= 0 then DEFAULT_SEND_BUFFER else configured
  }

  /**
   closers holds the frames of other goroutines that found the queue full and have not closed yet.
   atClose is how many frames had been enqueued when the client was first closed; enqueued,
   written, lost, sent, accepted, dispatched and logins are history.
   */
  datatype State = State(
    cap: nat,
    closed: bool,
    atClose: nat,
    queue: seq<Frame>,
    writer: Writer,
    closers: multiset<Frame>,
    reader: Reader,
    handles: seq<Message>,
    handler: Handler,
    session: Option<UserId>,
    enqueued: seq<Frame>,
    written: seq<Frame>,
    lost: seq<Frame>,
    sent: seq<Sent>,
    accepted: seq<Message>,
    dispatched: seq<Dispatched>,
    logins: seq<UserId>)

  function Init(configured: int): (s: State) {
    State(SendBuffer(configured), false, 0, [], Idle(false), multiset{}, Reading, [], Waiting, None,
          [], [], [], [], [], [], [])
  }

  /** How a select in SendServerMessage resolves. */
  datatype Choice = Enqueue | Drop | Overflow

  datatype WriteStep = Take | Write | Fail | PingFails | SeeDone | Drained

  datatype ReadStep =
    | Arrive(a: Arrival)
    | OfferReply(choice: Choice)
    | CloseAfterReply
    | Push
    | SeeClosed
    | ReadError
    | Exit

  datatype HandleStep =
    | TakeMessage
    | Dispatch(failure: Option<nat>)
    | Accept(u: UserId)
    | Deny
    | OfferAnswer(choice: Choice)
    | CloseAfterAnswer
    | Quit

  datatype Step =
    | ByWriter(w: WriteStep)
    | ByReader(r: ReadStep)
    | ByHandler(h: HandleStep)
    | ByOther(frame: Frame, choice: Choice)
    | OtherCloses(frame: Frame)
    | Shutdown

  /** Nothing on the receiving side has changed. */
  ghost predicate Aside(s: State, s': State) {
    && s'.handles == s.handles && s'.accepted == s.accepted && s'.dispatched == s.dispatched
    && s'.session == s.session && s'.logins == s.logins && s'.reader == s.reader && s'.handler == s.handler
  }

  // ---------------------------------------------------------------- sending

  /** Space is taken, done is noticed, and only when neither holds is the queue full. */
  predicate Offered(s: State, choice: Choice) {
    match choice
    case Enqueue => |s.queue| < s.cap
    case Drop => s.closed
    case Overflow => |s.queue| >= s.cap && !s.closed
  }

  /** Close, which takes effect once. */
  function Close(s: State): (s': State)
    ensures Aside(s, s')
  {
    if s.closed then s else s.(closed := true, atClose := |s.enqueued|)
  }

  /** The send as far as the queue goes; an overflowing one returns after its Close. */
  function Offer(s: State, frame: Frame, choice: Choice): (s': State)
    ensures Aside(s, s')
  {
    match choice
    case Enqueue =>
      s.(queue := s.queue + [frame], enqueued := s.enqueued + [frame], sent := s.sent + [Sent(frame, true)])
    case Drop => s.(sent := s.sent + [Sent(frame, false)])
    case Overflow => s
  }

  /** Close after an overflow; the send that lost its frame returns with it. */
  function CloseFor(s: State, frame: Frame): (s': State)
    ensures Aside(s, s')
  {
    Close(s).(sent := s.sent + [Sent(frame, false)])
  }

  predicate WriteEnabled(s: State, w: WriteStep) {
    match w
    case Take => s.writer.Idle? && s.queue != []
    case Write => s.writer.Writing?
    case Fail => s.writer.Writing?
    case PingFails => s.writer == Idle(false)
    case SeeDone => s.writer == Idle(false) && s.closed
    case Drained => s.writer == Idle(true) && s.queue == []
  }

  function WriteNext(s: State, w: WriteStep): (s': State)
    requires WriteEnabled(s, w)
    ensures Aside(s, s')
  {
    match w
    case Take => s.(queue := s.queue[1..], writer := Writing(s.queue[0], s.writer.flushing))
    case Write => s.(written := s.written + [s.writer.frame], writer := Idle(s.writer.flushing))
    case Fail => s.(lost := s.lost + [s.writer.frame], writer := Exited(true))
    case PingFails => s.(writer := Exited(true))
    case SeeDone => s.(writer := Idle(true))
    case Drained => s.(writer := Exited(false))
  }

  // ---------------------------------------------------------------- the read loop

  /** The acceptance rule: refuse with an error frame, echo a ping, or hand the message over. */
  function Admit(s: State, a: Arrival): (reader: Reader) {
    match a
    case NotBinary => Offering(Failure(0, 400))
    case Malformed => Offering(Failure(0, 400))
    case Decoded(m) =>
      if m.kind.Ping? then Offering(Pong(m.id))
      else if s.session.None? && !m.kind.Auth? then Offering(Failure(m.id, 401))
      else Pushing(m)
  }

  predicate ReadEnabled(s: State, r: ReadStep) {
    match r
    case Arrive(a) => s.reader.Reading?
    case OfferReply(choice) => s.reader.Offering? && Offered(s, choice)
    case CloseAfterReply => s.reader.Disconnecting?
    case Push => s.reader.Pushing? && |s.handles| < HANDLE_BUFFER
    case SeeClosed => s.reader.Pushing? && s.closed
    case ReadError => s.reader.Reading?
    case Exit => s.reader.Leaving?
  }

  function ReadNext(s: State, r: ReadStep): (after: State)
    requires ReadEnabled(s, r)
  {
    match r
    case Arrive(a) => s.(reader := Admit(s, a))
    case OfferReply(choice) =>
      var frame := s.reader.frame;
      Offer(s, frame, choice).(reader := if choice.Overflow? then Disconnecting(frame) else Reading)
    case CloseAfterReply => CloseFor(s, s.reader.unsent).(reader := Reading)
    case Push => s.(handles := s.handles + [s.reader.m], accepted := s.accepted + [s.reader.m], reader := Reading)
    case SeeClosed => s.(reader := Leaving)
    case ReadError => s.(reader := Leaving)
    case Exit => Close(s).(reader := Left)
  }

  // ---------------------------------------------------------------- the handle loop

  /** Dispatch of one message; what it answers, or waits for. */
  function Route(s: State, m: Message, failure: Option<nat>): (handler: Handler) {
    match m.kind
    case Auth => if s.session.Some? then Answering(Failure(m.id, 400), false) else Verifying(m)
    case Subscribe => Waiting
    case Unsubscribe => Waiting
    case Request => Answering(if failure.Some? then Failure(m.id, failure.value) else Response(m.id), false)
    case _ => Answering(Failure(m.id, 400), false)
  }

  predicate HandleEnabled(s: State, h: HandleStep) {
    match h
    case TakeMessage => s.handler.Waiting? && s.handles != []
    case Dispatch(failure) => s.handler.Handling?
    case Accept(u) => s.handler.Verifying?
    case Deny => s.handler.Verifying?
    case OfferAnswer(choice) => s.handler.Answering? && Offered(s, choice)
    case CloseAfterAnswer => s.handler.HangingUp?
    case Quit => s.handler.Waiting? && s.closed
  }

  function HandleNext(s: State, h: HandleStep): (after: State)
    requires HandleEnabled(s, h)
  {
    match h
    case TakeMessage =>
      s.(handles := s.handles[1..],
         dispatched := s.dispatched + [Dispatched(s.handles[0], s.session)],
         handler := Handling(s.handles[0]))
    case Dispatch(failure) => s.(handler := Route(s, s.handler.m, failure))
    case Accept(u) =>
      s.(session := Some(u), logins := s.logins + [u], handler := Answering(Response(s.handler.m.id), false))
    case Deny => s.(handler := Answering(Failure(s.handler.m.id, 401), true))
    case OfferAnswer(choice) =>
      var Answering(frame, thenClose) := s.handler;
      Offer(s, frame, choice).(handler := if choice.Overflow? then HangingUp(Some(frame))
                                          else if thenClose then HangingUp(None) else Waiting)
    case CloseAfterAnswer =>
      var s' := if s.handler.unsent.Some? then CloseFor(s, s.handler.unsent.value) else Close(s);
      s'.(handler := Waiting)
    case Quit => s.(handler := Finished)
  }

  // ---------------------------------------------------------------- steps and runs

  predicate Enabled(s: State, step: Step) {
    match step
    case ByWriter(w) => WriteEnabled(s, w)
    case ByReader(r) => ReadEnabled(s, r)
    case ByHandler(h) => HandleEnabled(s, h)
    case ByOther(frame, choice) => Offered(s, choice)
    case OtherCloses(frame) => frame in s.closers
    case Shutdown => true
  }

  function Next(s: State, step: Step): (after: State)
    requires Enabled(s, step)
  {
    match step
    case ByWriter(w) => WriteNext(s, w)
    case ByReader(r) => ReadNext(s, r)
    case ByHandler(h) => HandleNext(s, h)
    case ByOther(frame, choice) =>
      Offer(s, frame, choice).(closers := if choice.Overflow? then s.closers + multiset{frame} else s.closers)
    case OtherCloses(frame) => CloseFor(s, frame).(closers := s.closers - multiset{frame})
    case Shutdown => Close(s)
  }

  ghost predicate Run(s: State, steps: seq<Step>, s': State)
    decreases |steps|
  {
    if steps == [] then s' == s else Enabled(s, steps[0]) && Run(Next(s, steps[0]), steps[1..], s')
  }

  // ---------------------------------------------------------------- the send queue

  function InFlight(w: Writer): (r: seq<Frame>) {
    if w.Writing? then [w.frame] else []
  }

  function Queued(log: seq<Sent>): (r: seq<Frame>) {
    if log == [] then []
    else Queued(log[..|log| - 1]) + if log[|log| - 1].queued then [log[|log| - 1].frame] else []
  }

  /** Nothing enqueued is skipped, duplicated or reordered on its way to the wire. */
  ghost predicate Conserved(s: State) {
    && s.enqueued == s.written + s.lost + InFlight(s.writer) + s.queue
    && |s.queue| <= s.cap
    && |s.lost| <= 1 && (s.lost != [] ==> s.writer == Exited(true))
  }

  /** A write loop that ended by itself wrote every frame enqueued before the client was closed. */
  ghost predicate Flushed(s: State) {
    && (s.closed ==> s.atClose <= |s.enqueued|)
    && (!s.writer.Exited? && s.writer.flushing ==> s.closed)
    && (s.writer == Exited(false) ==> s.closed && s.atClose <= |s.written|)
  }

  /** A send that returned put its frame in the queue, or left the client closed. */
  ghost predicate SendsKept(s: State) {
    && Queued(s.sent) == s.enqueued
    && (!s.closed ==> forall i :: 0 <= i < |s.sent| ==> s.sent[i].queued)
  }

  /** Everything the senders and the write loop promise each other. */
  ghost predicate Delivering(s: State) {
    Conserved(s) && Flushed(s) && SendsKept(s)
  }

  lemma OfferKeeps(s: State, frame: Frame, choice: Choice)
    requires Delivering(s) && Offered(s, choice)
    ensures Delivering(Offer(s, frame, choice))
  {
    var s' := Offer(s, frame, choice);
    if !choice.Overflow? {
      assert s'.sent[..|s'.sent| - 1] == s.sent;
    }
  }

  lemma CloseForKeeps(s: State, frame: Frame)
    requires Delivering(s)
    ensures Delivering(Close(s)) && Delivering(CloseFor(s, frame))
  {
    assert CloseFor(s, frame).sent[..|s.sent|] == s.sent;
  }

  lemma WriteKeeps(s: State, w: WriteStep)
    requires Delivering(s) && WriteEnabled(s, w)
    ensures Delivering(WriteNext(s, w))
  {}

  lemma ReadKeepsDelivering(s: State, r: ReadStep)
    requires Delivering(s) && ReadEnabled(s, r)
    ensures Delivering(ReadNext(s, r))
  {
    match r
    case OfferReply(choice) => OfferKeeps(s, s.reader.frame, choice);
    case CloseAfterReply => CloseForKeeps(s, s.reader.unsent);
    case _ =>
  }

  lemma HandleKeepsDelivering(s: State, h: HandleStep)
    requires Delivering(s) && HandleEnabled(s, h)
    ensures Delivering(HandleNext(s, h))
  {
    match h
    case OfferAnswer(choice) => OfferKeeps(s, s.handler.frame, choice);
    case CloseAfterAnswer =>
      if s.handler.unsent.Some? {
        CloseForKeeps(s, s.handler.unsent.value);
      }
    case _ =>
  }

  lemma StepKeepsDelivering(s: State, step: Step)
    requires Delivering(s) && Enabled(s, step)
    ensures Delivering(Next(s, step))
  {
    match step
    case ByWriter(w) => WriteKeeps(s, w);
    case ByReader(r) => ReadKeepsDelivering(s, r);
    case ByHandler(h) => HandleKeepsDelivering(s, h);
    case ByOther(frame, choice) => OfferKeeps(s, frame, choice);
    case OtherCloses(frame) => CloseForKeeps(s, frame);
    case Shutdown =>
  }

  // ---------------------------------------------------------------- the handle queue and the auth gate

  function Messages(log: seq<Dispatched>): (ms: seq<Message>)
    ensures |ms| == |log| && forall i :: 0 <= i < |log| ==> ms[i] == log[i].m
  {
    seq(|log|, i requires 0 <= i < |log| => log[i].m)
  }

  /** Messages are dispatched in the order they were accepted, none skipped. */
  ghost predicate InOrder(s: State) {
    s.accepted == Messages(s.dispatched) + s.handles && |s.handles| <= HANDLE_BUFFER
  }

  /** A message may be handled: it is no ping, and it asks to log in unless somebody has. */
  ghost predicate MayPass(s: State, m: Message) {
    !m.kind.Ping? && (m.kind.Auth? || s.session.Some?)
  }

  ghost predicate Gated(s: State) {
    && (s.reader.Pushing? ==> MayPass(s, s.reader.m))
    && (forall i :: 0 <= i < |s.handles| ==> MayPass(s, s.handles[i]))
    && (forall i :: 0 <= i < |s.dispatched| ==>
          var d := s.dispatched[i]; !d.m.kind.Ping? && (d.m.kind.Auth? || d.session.Some?))
  }

  /** The session is set once, by the handle loop. */
  ghost predicate OneLogin(s: State) {
    && s.logins == (if s.session.Some? then [s.session.value] else [])
    && (s.handler.Verifying? ==> s.session.None?)
    && (forall i :: 0 <= i < |s.dispatched| ==> s.dispatched[i].session in {None, s.session})
  }

  /** Everything the read loop and the handle loop promise each other. */
  ghost predicate Received(s: State) {
    InOrder(s) && Gated(s) && OneLogin(s)
  }

  lemma AsideKeeps(s: State, s': State)
    requires Received(s) && Aside(s, s')
    ensures Received(s')
  {}

  lemma ReadKeeps(s: State, r: ReadStep)
    requires Received(s) && ReadEnabled(s, r)
    ensures Received(ReadNext(s, r))
  {
    match r
    case Push =>
      var s' := ReadNext(s, r);
      assert s'.handles == s.handles + [s.reader.m];
    case _ =>
  }

  lemma TakeKeeps(s: State)
    requires Received(s) && HandleEnabled(s, TakeMessage)
    ensures Received(HandleNext(s, TakeMessage))
  {
    var s' := HandleNext(s, TakeMessage);
    assert Messages(s'.dispatched) == Messages(s.dispatched) + [s.handles[0]];
  }

  lemma HandleKeeps(s: State, h: HandleStep)
    requires Received(s) && HandleEnabled(s, h)
    ensures Received(HandleNext(s, h))
  {
    match h
    case TakeMessage => TakeKeeps(s);
    case _ =>
  }

  lemma StepKeepsReceived(s: State, step: Step)
    requires Received(s) && Enabled(s, step)
    ensures Received(Next(s, step))
  {
    match step
    case ByReader(r) => ReadKeeps(s, r);
    case ByHandler(h) => HandleKeeps(s, h);
    case _ => AsideKeeps(s, Next(s, step));
  }

  // ---------------------------------------------------------------- over every run

  lemma {:induction false} RunKeeps(s: State, steps: seq<Step>, s': State)
    requires Delivering(s) && Received(s) && Run(s, steps, s')
    ensures Delivering(s') && Received(s')
    decreases |steps|
  {
    if steps == [] {
    } else {
      StepKeepsDelivering(s, steps[0]);
      StepKeepsReceived(s, steps[0]);
      RunKeeps(Next(s, steps[0]), steps[1..], s');
    }
  }

  lemma InitIsSound(configured: int)
    ensures Delivering(Init(configured)) && Received(Init(configured))
  {}

  /**
   Over every run the frames written are a gap-free prefix of the frames enqueued: all that is
   missing at any time is at most one frame whose write broke the connection or is under way, and
   what still waits in the queue.
   */
  lemma WrittenIsPrefixOfEnqueued(configured: int, steps: seq<Step>, s: State)
    requires Run(Init(configured), steps, s)
    ensures s.written <= s.enqueued
    ensures s.enqueued == s.written + s.lost + InFlight(s.writer) + s.queue
    ensures |s.lost + InFlight(s.writer)| <= 1 && |s.queue| <= s.cap
  {
    InitIsSound(configured);
    RunKeeps(Init(configured), steps, s);
  }

  /** Every send that returned either put its frame in the queue, in its turn, or left the client closed. */
  lemma SentOrClosed(configured: int, steps: seq<Step>, s: State)
    requires Run(Init(configured), steps, s)
    ensures Queued(s.sent) == s.enqueued
    ensures (exists i :: 0 <= i < |s.sent| && !s.sent[i].queued) ==> s.closed
  {
    InitIsSound(configured);
    RunKeeps(Init(configured), steps, s);
  }

  /**
   Close is graceful: unless a write or a ping broke the connection, the write loop ends only after
   writing every frame enqueued before the client was closed.
   */
  lemma CloseFlushes(configured: int, steps: seq<Step>, s: State)
    requires Run(Init(configured), steps, s) && s.writer == Exited(false)
    ensures s.closed && s.atClose <= |s.written| <= |s.enqueued| && s.written == s.enqueued[..|s.written|]
  {
    InitIsSound(configured);
    RunKeeps(Init(configured), steps, s);
  }

  /** Messages are dispatched in arrival order: what was taken is a prefix of what was accepted. */
  lemma DispatchedInOrder(configured: int, steps: seq<Step>, s: State)
    requires Run(Init(configured), steps, s)
    ensures Messages(s.dispatched) <= s.accepted
    ensures s.accepted[|s.dispatched|..] == s.handles && |s.handles| <= 64
  {
    InitIsSound(configured);
    RunKeeps(Init(configured), steps, s);
  }

  /**
   The auth gate: every message dispatched but a login finds the session set, and it is the one
   and only session the connection ever gets; pings never reach the dispatcher.
   */
  lemma AuthGate(configured: int, steps: seq<Step>, s: State)
    requires Run(Init(configured), steps, s)
    ensures |s.logins| <= 1 && (s.session.Some? ==> s.logins == [s.session.value])
    ensures forall i :: 0 <= i < |s.dispatched| && !s.dispatched[i].m.kind.Auth? ==>
              s.session.Some? && s.dispatched[i].session == s.session
    ensures forall i :: 0 <= i < |s.dispatched| ==> !s.dispatched[i].m.kind.Ping?
  {
    InitIsSound(configured);
    RunKeeps(Init(configured), steps, s);
  }

  lemma HandleKeepsWriter(s: State, h: HandleStep)
    requires HandleEnabled(s, h)
    ensures HandleNext(s, h).writer == s.writer && HandleNext(s, h).written == s.written
  {}

  lemma ReadKeepsWriter(s: State, r: ReadStep)
    requires ReadEnabled(s, r)
    ensures ReadNext(s, r).writer == s.writer && ReadNext(s, r).written == s.written
  {}

  /** Only the write loop moves itself and writes. */
  lemma OthersKeepWriter(s: State, step: Step)
    requires Enabled(s, step) && !step.ByWriter?
    ensures Next(s, step).writer == s.writer && Next(s, step).written == s.written
  {
    match step
    case ByReader(r) => ReadKeepsWriter(s, r);
    case ByHandler(h) => HandleKeepsWriter(s, h);
    case _ =>
  }

  lemma ExitedStays(s: State, step: Step)
    requires s.writer.Exited? && Enabled(s, step)
    ensures Next(s, step).writer == s.writer && Next(s, step).written == s.written
  {
    OthersKeepWriter(s, step);
  }

  /** Once the write loop has ended nothing more is written, whatever is still enqueued. */
  lemma {:induction false} ExitIsFinal(s: State, steps: seq<Step>, s': State)
    requires s.writer.Exited? && Run(s, steps, s')
    ensures s'.writer == s.writer && s'.written == s.written
    decreases |steps|
  {
    if steps == [] {
    } else {
      ExitedStays(s, steps[0]);
      ExitIsFinal(Next(s, steps[0]), steps[1..], s');
    }
  }

  lemma DrainedWrites(s: State, w: WriteStep)
    requires Delivering(s) && WriteEnabled(s, w) && !s.writer.Exited? && WriteNext(s, w).writer == Exited(false)
    ensures s.written == s.enqueued && WriteNext(s, w).written == s.written
  {
    assert s.queue == [] && s.lost == [] && InFlight(s.writer) == [];
  }

  /** The flush ends only on an empty queue, with everything enqueued by then written. */
  lemma DrainedIsComplete(s: State, step: Step)
    requires Delivering(s) && Enabled(s, step) && !s.writer.Exited? && Next(s, step).writer == Exited(false)
    ensures s.written == s.enqueued && Next(s, step).written == s.written
  {
    if step.ByWriter? {
      DrainedWrites(s, step.w);
    } else {
      OthersKeepWriter(s, step);
    }
  }

  /**
   A run whose write loop ends unbroken ends it at one step, before which everything enqueued was
   written and after which nothing is.
   */
  lemma {:induction false} EndOfTheFlush(s: State, steps: seq<Step>, s': State) returns (n: nat, mid: State)
    requires Delivering(s) && !s.writer.Exited? && Run(s, steps, s') && s'.writer == Exited(false)
    ensures n <= |steps| && Run(s, steps[..n], mid) && !mid.writer.Exited?
    ensures mid.enqueued == mid.written == s'.written && s.enqueued <= mid.enqueued
    decreases |steps|
  {
    var s1 := Next(s, steps[0]);
    if s1.writer.Exited? {
      ExitIsFinal(s1, steps[1..], s');
      DrainedIsComplete(s, steps[0]);
      n, mid := 0, s;
      assert steps[..0] == [];
    } else {
      StepKeepsDelivering(s, steps[0]);
      EnqueuedGrows(s, steps[0]);
      n, mid := EndOfTheFlush(s1, steps[1..], s');
      assert steps[..n + 1] == [steps[0]] + steps[1..][..n];
      assert (steps[..n + 1])[1..] == steps[1..][..n];
      n := n + 1;
    }
  }

  lemma EnqueuedGrows(s: State, step: Step)
    requires Enabled(s, step)
    ensures s.enqueued <= Next(s, step).enqueued
  {}

  lemma {:induction false} RunRest(s: State, steps: seq<Step>, s': State, n: nat, mid: State)
    requires n <= |steps| && Run(s, steps, s') && Run(s, steps[..n], mid)
    ensures Run(mid, steps[n..], s')
    decreases n
  {
    if n == 0 {
      assert steps[0..] == steps;
    } else {
      assert steps[..n][1..] == steps[1..][..n - 1] && steps[n..] == steps[1..][n - 1..];
      RunRest(Next(s, steps[0]), steps[1..], s', n - 1, mid);
    }
  }

  /** Frame number i is in the queue, or past it, while the write loop is still running. */
  ghost predicate EnqueuedInTime(s: State, steps: seq<Step>, i: nat) {
    exists n: nat, mid :: n <= |steps| && Run(s, steps[..n], mid) && !mid.writer.Exited? && i < |mid.enqueued|
  }

  /**
   Over every run whose write loop ended unbroken: a frame that was enqueued, before Close or after it,
   is written if and only if it was enqueued before the loop ended.
   */
  lemma WrittenExactly(configured: int, steps: seq<Step>, s: State, i: nat)
    requires Run(Init(configured), steps, s) && s.writer == Exited(false) && i < |s.enqueued|
    ensures s.written <= s.enqueued
    ensures i < |s.written| <==> EnqueuedInTime(Init(configured), steps, i)
  {
    InitIsSound(configured);
    WrittenIsPrefixOfEnqueued(configured, steps, s);
    var n, mid := EndOfTheFlush(Init(configured), steps, s);
    if EnqueuedInTime(Init(configured), steps, i) {
      var n': nat, mid' :| n' <= |steps| && Run(Init(configured), steps[..n'], mid') && !mid'.writer.Exited?
                          && i < |mid'.enqueued|;
      RunKeeps(Init(configured), steps[..n'], mid');
      RunRest(Init(configured), steps, s, n', mid');
      var n2, mid2 := EndOfTheFlush(mid', steps[n'..], s);
    }
  }

  /**
   A send that loses the race with Close can still find space and be queued after the flush: it is
   reported as queued, and never written.
   */
  lemma QueuedAfterTheFlush(configured: int, frame: Frame, rest: seq<Step>, s': State)
    ensures exists s ::
              && Run(Init(configured), [Shutdown, ByWriter(SeeDone), ByWriter(Drained), ByOther(frame, Enqueue)], s)
              && s.sent == [Sent(frame, true)]
              && (Run(s, rest, s') ==> s'.written == [])
  {
    var s1 := Next(Init(configured), Shutdown);
    var s2 := Next(s1, ByWriter(SeeDone));
    var s3 := Next(s2, ByWriter(Drained));
    var s4 := Next(s3, ByOther(frame, Enqueue));
    assert Run(s4, [], s4);
    assert Run(s3, [ByOther(frame, Enqueue)], s4);
    assert Run(s2, [ByWriter(Drained), ByOther(frame, Enqueue)], s4);
    assert Run(s1, [ByWriter(SeeDone), ByWriter(Drained), ByOther(frame, Enqueue)], s4);
    if Run(s4, rest, s') {
      ExitIsFinal(s4, rest, s');
    }
  }
}
