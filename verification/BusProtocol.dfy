/**
 The event bus as an interleaved protocol: every operation on the topic map, and every locked
 operation on a topic, is one atomic step. Topic instances have identity: instance i is the
 i-th one created, and a deleted instance is never stored again. Each (topic, subscriber) pair
 has at most one subscribe or unsubscribe in flight; publishes interleave freely.
 */
module BusProtocol {
  import opened Base

  type Name = string
  type SubId = nat
  type PubId = nat
  type Inst = nat

  datatype Key = Key(name: Name, sub: SubId)

  /** When the deleting unsubscribe saw the instance empty, and when it deleted it. */
  datatype Deletion = Deletion(seenEmpty: nat, at: nat)

  /** A topic instance; subs maps each member to the time it was added. */
  datatype Topic = Topic(name: Name, subs: map<SubId, nat>, deletion: Option<Deletion>)

  /** Where a subscribe or unsubscribe stands: the step it takes next. */
  datatype Pc =
    | SubLoad
    | SubAdd(t: Inst)
    | SubCheck(t: Inst, addedAt: nat)
    | SubUndo(t: Inst)
    | UnsubLoad
    | UnsubRemove(t: Inst)
    | UnsubTest(t: Inst)
    | UnsubDelete(t: Inst, seenEmpty: nat)

  /** retries counts the returns to the top of the loop; deletesBefore is taken when the call starts. */
  datatype Op = Op(pc: Pc, retries: nat, deletesBefore: nat)

  datatype Pub = PubLoad(name: Name, started: nat) | PubSnap(t: Inst, started: nat) | PubSend(todo: set<SubId>)

  /** A subscription whose Subscribe returned: its instance, the time of its add and of its check. */
  datatype Home = Home(t: Inst, addedAt: nat, checkedAt: nat)

  /** What a publish saw: the members, and those that had been unsubscribed since before it started. */
  datatype Snapshot = Snapshot(members: set<SubId>, off: set<SubId>)

  /**
   active, offSince, deletes, snaps and delivered are history: the subscriptions that stand, the
   pairs without one since their unsubscribe returned, the deletions of each topic, and what
   publishes saw and delivered.
   */
  datatype State = State(
    topics: map<Name, Inst>,
    insts: seq<Topic>,
    ops: map<Key, Op>,
    pubs: map<PubId, Pub>,
    now: nat,
    active: map<Key, Home>,
    offSince: map<Key, nat>,
    deletes: map<Name, nat>,
    snaps: map<PubId, Snapshot>,
    delivered: multiset<(PubId, SubId)>)

  datatype Step =
    | StartSubscribe(k: Key)
    | StartUnsubscribe(k: Key)
    | Advance(k: Key)
    | StartPublish(p: PubId, name: Name)
    | AdvancePublish(p: PubId)
    | Deliver(p: PubId, sub: SubId)

  const INIT: State := State(map[], [], map[], map[], 1, map[], map[], map[], map[], multiset{})

  function Deletes(s: State, n: Name): (r: nat) {
    if n in s.deletes then s.deletes[n] else 0
  }

  /** The map holds instance t under n. */
  predicate Current(s: State, n: Name, t: Inst) {
    n in s.topics && s.topics[n] == t
  }

  predicate Enabled(s: State, step: Step) {
    match step
    case StartSubscribe(k) => k !in s.ops
    case StartUnsubscribe(k) => k !in s.ops
    case Advance(k) => k in s.ops && (s.ops[k].pc.SubLoad? || s.ops[k].pc.UnsubLoad? || s.ops[k].pc.t < |s.insts|)
    case StartPublish(p, _) => p !in s.pubs && p !in s.snaps
    case AdvancePublish(p) =>
      p in s.pubs
      && (match s.pubs[p]
          case PubLoad(_, _) => true
          case PubSnap(t, _) => t < |s.insts|
          case PubSend(todo) => todo == {})
    case Deliver(p, sub) => p in s.pubs && s.pubs[p].PubSend? && sub in s.pubs[p].todo
  }

  /** Publishes and what they saw are left alone. */
  predicate PublishesKept(s: State, s': State) {
    s'.pubs == s.pubs && s'.snaps == s.snaps
  }

  function Start(s: State, k: Key, pc: Pc): (s': State)
    ensures PublishesKept(s, s')
  {
    s.(ops := s.ops[k := Op(pc, 0, Deletes(s, k.name))], active := s.active - {k}, offSince := s.offSince - {k})
  }

  function Goto(s: State, k: Key, pc: Pc): (s': State)
    requires k in s.ops
    ensures PublishesKept(s, s')
  {
    s.(ops := s.ops[k := s.ops[k].(pc := pc)])
  }

  function SetSubs(s: State, t: Inst, subs: map<SubId, nat>): (s': State)
    requires t < |s.insts|
    ensures PublishesKept(s, s')
  {
    s.(insts := s.insts[t := s.insts[t].(subs := subs)])
  }

  /** LoadOrStore: the instance the map holds, or a new one. */
  function LoadOrStore(s: State, k: Key): (s': State)
    requires k in s.ops
    ensures PublishesKept(s, s')
  {
    if k.name in s.topics then Goto(s, k, SubAdd(s.topics[k.name]))
    else
      Goto(s, k, SubAdd(|s.insts|)).(
        topics := s.topics[k.name := |s.insts|],
        insts := s.insts + [Topic(k.name, map[], None)])
  }

  function Add(s: State, k: Key, t: Inst): (s': State)
    requires k in s.ops && t < |s.insts|
    ensures PublishesKept(s, s')
  {
    Goto(SetSubs(s, t, s.insts[t].subs[k.sub := s.now]), k, SubCheck(t, s.now))
  }

  /** The check after the add: done if the map still holds t, otherwise undo and try again. */
  function Check(s: State, k: Key, t: Inst, addedAt: nat): (s': State)
    requires k in s.ops
    ensures PublishesKept(s, s')
  {
    if Current(s, k.name, t)
    then s.(ops := s.ops - {k}, active := s.active[k := Home(t, addedAt, s.now)])
    else Goto(s, k, SubUndo(t))
  }

  function Undo(s: State, k: Key, t: Inst): (s': State)
    requires k in s.ops && t < |s.insts|
    ensures PublishesKept(s, s')
  {
    SetSubs(s, t, s.insts[t].subs - {k.sub}).(
      ops := s.ops[k := s.ops[k].(pc := SubLoad, retries := s.ops[k].retries + 1)])
  }

  function EndUnsubscribe(s: State, k: Key): (s': State)
    ensures PublishesKept(s, s')
  {
    s.(ops := s.ops - {k}, offSince := s.offSince[k := s.now])
  }

  /** CompareAndDelete: only if the map still holds this instance. */
  function Delete(s: State, k: Key, t: Inst, seenEmpty: nat): (s': State)
    requires t < |s.insts|
    ensures PublishesKept(s, s')
  {
    EndUnsubscribe(
      if Current(s, k.name, t)
      then s.(topics := s.topics - {k.name},
              insts := s.insts[t := s.insts[t].(deletion := Some(Deletion(seenEmpty, s.now)))],
              deletes := s.deletes[k.name := Deletes(s, k.name) + 1])
      else s,
      k)
  }

  function AdvanceOp(s: State, k: Key): (s': State)
    requires Enabled(s, Advance(k))
    ensures PublishesKept(s, s')
  {
    match s.ops[k].pc
    case SubLoad => LoadOrStore(s, k)
    case SubAdd(t) => Add(s, k, t)
    case SubCheck(t, addedAt) => Check(s, k, t, addedAt)
    case SubUndo(t) => Undo(s, k, t)
    case UnsubLoad => if k.name in s.topics then Goto(s, k, UnsubRemove(s.topics[k.name])) else EndUnsubscribe(s, k)
    case UnsubRemove(t) => Goto(SetSubs(s, t, s.insts[t].subs - {k.sub}), k, UnsubTest(t))
    case UnsubTest(t) => if s.insts[t].subs == map[] then Goto(s, k, UnsubDelete(t, s.now)) else EndUnsubscribe(s, k)
    case UnsubDelete(t, seenEmpty) => Delete(s, k, t, seenEmpty)
  }

  /** The subscribers of n that are off since before time t. */
  function OffBefore(s: State, n: Name, t: nat): (r: set<SubId>) {
    set k | k in s.offSince && k.name == n && s.offSince[k] <= t :: k.sub
  }

  function AdvancePub(s: State, p: PubId): (after: State)
    requires Enabled(s, AdvancePublish(p))
  {
    match s.pubs[p]
    case PubLoad(n, started) =>
      if n in s.topics then s.(pubs := s.pubs[p := PubSnap(s.topics[n], started)]) else s.(pubs := s.pubs - {p})
    case PubSnap(t, started) =>
      var members := s.insts[t].subs.Keys;
      s.(pubs := s.pubs[p := PubSend(members)],
         snaps := s.snaps[p := Snapshot(members, OffBefore(s, s.insts[t].name, started))])
    case PubSend(_) => s.(pubs := s.pubs - {p})
  }

  function Apply(s: State, step: Step): (after: State)
    requires Enabled(s, step)
  {
    var s' :=
      match step
      case StartSubscribe(k) => Start(s, k, SubLoad)
      case StartUnsubscribe(k) => Start(s, k, UnsubLoad)
      case Advance(k) => AdvanceOp(s, k)
      case StartPublish(p, n) => s.(pubs := s.pubs[p := PubLoad(n, s.now)])
      case AdvancePublish(p) => AdvancePub(s, p)
      case Deliver(p, sub) =>
        s.(pubs := s.pubs[p := PubSend(s.pubs[p].todo - {sub})], delivered := s.delivered + multiset{(p, sub)});
    s'.(now := s.now + 1)
  }

  /** A step that is not enabled is skipped. */
  function Next(s: State, step: Step): (after: State) {
    if Enabled(s, step) then Apply(s, step) else s
  }

  function Exec(s: State, steps: seq<Step>): (after: State)
    decreases |steps|
  {
    if steps == [] then s else Exec(Next(s, steps[0]), steps[1..])
  }

  // ---------------------------------------------------------------- invariants

  /** The map holds, under each name, the one instance of that name that is not deleted. */
  ghost predicate InstsOk(s: State) {
    && (forall n :: n in s.topics ==> s.topics[n] < |s.insts| && s.insts[s.topics[n]].name == n)
    && (forall t :: 0 <= t < |s.insts| ==> InstOk(s, t))
  }

  ghost predicate InstOk(s: State, t: Inst)
    requires t < |s.insts|
  {
    && (s.insts[t].deletion.None? <==> Current(s, s.insts[t].name, t))
    && (forall m :: m in s.insts[t].subs ==> s.insts[t].subs[m] < s.now)
  }

  /** The current instance of k's topic, if there is one, does not hold k. */
  ghost predicate Gone(s: State, k: Key) {
    k.name in s.topics && s.topics[k.name] < |s.insts| ==> k.sub !in s.insts[s.topics[k.name]].subs
  }

  /** What a pending operation knows of the instance it holds. */
  ghost predicate OpOk(s: State, k: Key)
    requires k in s.ops
  {
    var pc := s.ops[k].pc;
    && (pc.SubLoad? || pc.UnsubLoad? || (pc.t < |s.insts| && s.insts[pc.t].name == k.name))
    && (pc.SubCheck? ==> k.sub in s.insts[pc.t].subs && s.insts[pc.t].subs[k.sub] == pc.addedAt)
    && (pc.UnsubRemove? ==> Current(s, k.name, pc.t) || Gone(s, k))
    && (pc.UnsubTest? || pc.UnsubDelete? ==> Gone(s, k))
    && (pc.UnsubDelete? ==>
          pc.seenEmpty < s.now && forall m :: m in s.insts[pc.t].subs ==> pc.seenEmpty < s.insts[pc.t].subs[m])
  }

  predicate Subscribing(pc: Pc) {
    pc.SubLoad? || pc.SubAdd? || pc.SubCheck? || pc.SubUndo?
  }

  /** Each retry, and the one now certain, is paid for by a deletion of the topic since the call began. */
  ghost predicate BudgetOk(s: State, k: Key)
    requires k in s.ops
  {
    var op := s.ops[k];
    var due := if op.pc.SubUndo? || ((op.pc.SubAdd? || op.pc.SubCheck?) && !Current(s, k.name, op.pc.t)) then 1 else 0;
    Subscribing(op.pc) ==> op.deletesBefore + op.retries + due <= Deletes(s, k.name)
  }

  /** A standing subscription: a member of its home since its add, deleted if at all in the known gap. */
  ghost predicate ActiveOk(s: State, k: Key)
    requires k in s.active
  {
    var h := s.active[k];
    && k !in s.ops
    && h.t < |s.insts| && s.insts[h.t].name == k.name
    && k.sub in s.insts[h.t].subs && s.insts[h.t].subs[k.sub] == h.addedAt
    && h.addedAt < h.checkedAt < s.now
    && (s.insts[h.t].deletion.Some? ==>
          s.insts[h.t].deletion.value.seenEmpty < h.addedAt && h.checkedAt < s.insts[h.t].deletion.value.at)
  }

  ghost predicate OffOk(s: State, k: Key)
    requires k in s.offSince
  {
    k !in s.ops && k !in s.active && s.offSince[k] < s.now && Gone(s, k)
  }

  ghost predicate PubOk(s: State, p: PubId)
    requires p in s.pubs
  {
    match s.pubs[p]
    case PubLoad(n, started) => p !in s.snaps && started < s.now
    case PubSnap(t, started) =>
      && p !in s.snaps && t < |s.insts| && started < s.now
      && forall k :: k in s.offSince && k.name == s.insts[t].name && s.offSince[k] <= started ==>
                       k.sub !in s.insts[t].subs
    case PubSend(todo) => p in s.snaps && todo <= s.snaps[p].members
  }

  /** Publish p saw member m and has no delivery to it left to do. */
  ghost predicate DeliveredTo(s: State, p: PubId, m: SubId) {
    p in s.snaps && m in s.snaps[p].members && !(p in s.pubs && s.pubs[p].PubSend? && m in s.pubs[p].todo)
  }

  ghost predicate SnapsOk(s: State) {
    && (forall p :: p in s.snaps ==> s.snaps[p].members !! s.snaps[p].off)
    && (forall p, m :: s.delivered[(p, m)] == if DeliveredTo(s, p, m) then 1 else 0)
  }

  ghost predicate Inv(s: State) {
    && InstsOk(s)
    && (forall k :: k in s.ops ==> OpOk(s, k) && BudgetOk(s, k))
    && (forall k :: k in s.active ==> ActiveOk(s, k))
    && (forall k :: k in s.offSince ==> OffOk(s, k))
    && (forall p :: p in s.pubs ==> PubOk(s, p))
    && SnapsOk(s)
  }

  // ---------------------------------------------------------------- preservation

  /** Nothing but requests and history differs, and no request, subscription or absence but k's. */
  ghost predicate OnlyKey(s: State, s': State, k: Key) {
    && s.now < s'.now
    && s'.pubs == s.pubs && s'.snaps == s.snaps && s'.delivered == s.delivered
    && (forall x :: x != k ==> (x in s'.ops <==> x in s.ops) && (x in s.ops ==> s'.ops[x] == s.ops[x]))
    && (forall x :: x != k ==> (x in s'.active <==> x in s.active) && (x in s.active ==> s'.active[x] == s.active[x]))
    && (forall x :: x != k ==>
                      && (x in s'.offSince <==> x in s.offSince)
                      && (x in s.offSince ==> s'.offSince[x] == s.offSince[x]))
    && (k in s'.offSince ==> s'.offSince[k] == s.now)
  }

  /** What holds of key k itself. */
  ghost predicate KeyOk(s: State, k: Key) {
    && (k in s.ops ==> OpOk(s, k) && BudgetOk(s, k))
    && (k in s.active ==> ActiveOk(s, k))
    && (k in s.offSince ==> OffOk(s, k))
  }

  /** An instance before and after a step of key k at time now. */
  ghost predicate SameBut(a: Topic, b: Topic, k: Key, now: nat) {
    && a.name == b.name
    && (a.name != k.name ==> a == b)
    && (forall m :: m != k.sub ==> (m in b.subs <==> m in a.subs) && (m in a.subs ==> b.subs[m] == a.subs[m]))
    && (k.sub in b.subs ==> b.subs[k.sub] == now || (k.sub in a.subs && b.subs[k.sub] == a.subs[k.sub]))
    && (b.deletion == a.deletion || DeletedNow(a, b, now))
  }

  ghost predicate DeletedNow(a: Topic, b: Topic, now: nat) {
    && a.deletion.None? && b.subs == a.subs && b.deletion.Some? && b.deletion.value.at == now
    && forall m :: m in a.subs ==> b.deletion.value.seenEmpty < a.subs[m]
  }

  /** What any step of key k may do to the instances. */
  ghost predicate InstsChanged(s: State, s': State, k: Key) {
    && |s.insts| <= |s'.insts|
    && (forall t :: 0 <= t < |s.insts| ==> SameBut(s.insts[t], s'.insts[t], k, s.now))
    && (forall t :: |s.insts| <= t < |s'.insts| ==> s'.insts[t] == Topic(k.name, map[], None))
  }

  /** And to the map. */
  ghost predicate MapChanged(s: State, s': State, k: Key) {
    && (forall n :: n != k.name ==>
                      && (n in s'.topics <==> n in s.topics)
                      && (n in s.topics ==> s'.topics[n] == s.topics[n]))
    && (forall n :: n != k.name ==> Deletes(s', n) == Deletes(s, n))
    && MapStep(s, s', k.name)
  }

  ghost predicate ChangedBy(s: State, s': State, k: Key) {
    InstsChanged(s, s', k) && MapChanged(s, s', k)
  }

  /** The entry of n stays, is deleted and counted, or is stored anew where there was none. */
  ghost predicate MapStep(s: State, s': State, n: Name) {
    if n in s.topics
    then
      || (Current(s', n, s.topics[n]) && Deletes(s', n) == Deletes(s, n))
      || (n !in s'.topics && Deletes(s', n) == Deletes(s, n) + 1)
    else Deletes(s', n) == Deletes(s, n) && (n in s'.topics ==> s'.topics[n] == |s.insts| < |s'.insts|)
  }

  lemma OpFrame(s: State, s': State, k: Key, x: Key)
    requires InstsOk(s) && ChangedBy(s, s', k) && OnlyKey(s, s', k) && x != k
    requires x in s.ops && OpOk(s, x) && BudgetOk(s, x)
    ensures OpOk(s', x) && BudgetOk(s', x)
  {
    var pc := s.ops[x].pc;
    if !pc.SubLoad? && !pc.UnsubLoad? {
      assert SameBut(s.insts[pc.t], s'.insts[pc.t], k, s.now);
    }
    GoneFrame(s, s', k, x);
  }

  lemma GoneFrame(s: State, s': State, k: Key, x: Key)
    requires InstsOk(s) && ChangedBy(s, s', k) && x != k
    ensures Gone(s, x) ==> Gone(s', x)
  {
    if x.name in s'.topics && s'.topics[x.name] < |s.insts| {
      assert SameBut(s.insts[s'.topics[x.name]], s'.insts[s'.topics[x.name]], k, s.now);
    }
  }

  lemma ActiveFrame(s: State, s': State, k: Key, x: Key)
    requires InstsOk(s) && ChangedBy(s, s', k) && OnlyKey(s, s', k) && x != k
    requires x in s.active && ActiveOk(s, x)
    ensures ActiveOk(s', x)
  {
    assert SameBut(s.insts[s.active[x].t], s'.insts[s.active[x].t], k, s.now);
  }

  lemma PubFrame(s: State, s': State, k: Key, p: PubId)
    requires ChangedBy(s, s', k) && OnlyKey(s, s', k)
    requires p in s.pubs && PubOk(s, p) && (k in s'.offSince ==> s'.offSince[k] == s.now)
    ensures PubOk(s', p)
  {
    if s.pubs[p].PubSnap? {
      assert SameBut(s.insts[s.pubs[p].t], s'.insts[s.pubs[p].t], k, s.now);
    }
  }

  lemma InstsFrame(s: State, s': State, k: Key)
    requires InstsOk(s) && ChangedBy(s, s', k) && s.now < s'.now
    requires forall t :: 0 <= t < |s.insts| ==>
               (s'.insts[t].deletion == s.insts[t].deletion <==> (Current(s, k.name, t) <==> Current(s', k.name, t)))
    requires |s'.insts| > |s.insts| ==> |s'.insts| == |s.insts| + 1 && Current(s', k.name, |s.insts|)
    ensures InstsOk(s')
  {
    forall t | 0 <= t < |s'.insts| ensures InstOk(s', t) {
      if t < |s.insts| {
        assert InstOk(s, t) && SameBut(s.insts[t], s'.insts[t], k, s.now);
      }
    }
  }

  /** A step of key k keeps everything if it keeps what concerns k and the instances. */
  lemma StepOfKey(s: State, s': State, k: Key)
    requires Inv(s) && ChangedBy(s, s', k) && OnlyKey(s, s', k) && KeyOk(s', k) && InstsOk(s')
    ensures Inv(s')
  {
    forall x | x in s'.ops ensures OpOk(s', x) && BudgetOk(s', x) {
      if x != k {
        OpFrame(s, s', k, x);
      }
    }
    forall x | x in s'.active ensures ActiveOk(s', x) {
      if x != k {
        ActiveFrame(s, s', k, x);
      }
    }
    forall x | x in s'.offSince ensures OffOk(s', x) {
      if x != k {
        assert OffOk(s, x);
        GoneFrame(s, s', k, x);
      }
    }
    forall p | p in s'.pubs ensures PubOk(s', p) {
      PubFrame(s, s', k, p);
    }
  }

  /** A step of key k that leaves the map and the instances alone. */
  lemma QuietStep(s: State, s': State, k: Key)
    requires Inv(s) && OnlyKey(s, s', k) && KeyOk(s', k)
    requires s'.topics == s.topics && s'.insts == s.insts && s'.deletes == s.deletes
    ensures Inv(s')
  {
    assert ChangedBy(s, s', k);
    InstsFrame(s, s', k);
    StepOfKey(s, s', k);
  }

  /** A step of key k that only changes k's membership of an instance of its topic. */
  lemma MemberStep(s: State, s': State, k: Key, t: Inst)
    requires Inv(s) && OnlyKey(s, s', k) && KeyOk(s', k) && t < |s.insts| == |s'.insts| && s.insts[t].name == k.name
    requires s'.topics == s.topics && s'.deletes == s.deletes
    requires s'.insts == s.insts[t := s.insts[t].(subs := s'.insts[t].subs)]
    requires s'.insts[t].subs == s.insts[t].subs[k.sub := s.now] || s'.insts[t].subs == s.insts[t].subs - {k.sub}
    ensures Inv(s')
  {
    assert ChangedBy(s, s', k);
    InstsFrame(s, s', k);
    StepOfKey(s, s', k);
  }

  /** The operation of k moves on, and that is all. */
  lemma GotoKeepsInv(s: State, k: Key, pc: Pc)
    requires Inv(s) && k in s.ops
    requires var s' := Goto(s, k, pc).(now := s.now + 1); OpOk(s', k) && BudgetOk(s', k)
    ensures Inv(Goto(s, k, pc).(now := s.now + 1))
  {
    var s' := Goto(s, k, pc).(now := s.now + 1);
    assert k !in s.active && k !in s.offSince by {
      assert k in s.active ==> ActiveOk(s, k);
      assert k in s.offSince ==> OffOk(s, k);
    }
    QuietStep(s, s', k);
  }

  /** An unsubscribe ends without deleting anything, k being gone from the current instance. */
  lemma EndKeepsInv(s: State, k: Key)
    requires Inv(s) && k in s.ops && Gone(s, k)
    ensures Inv(EndUnsubscribe(s, k).(now := s.now + 1))
  {
    var s' := EndUnsubscribe(s, k).(now := s.now + 1);
    assert k in s.active ==> ActiveOk(s, k);
    QuietStep(s, s', k);
  }

  lemma StoreChanges(s: State, k: Key)
    requires k in s.ops && k.name !in s.topics
    ensures ChangedBy(s, LoadOrStore(s, k).(now := s.now + 1), k)
  {}

  lemma StoreKeepsInv(s: State, k: Key)
    requires Inv(s) && k in s.ops && s.ops[k].pc.SubLoad? && k.name !in s.topics
    ensures Inv(LoadOrStore(s, k).(now := s.now + 1))
  {
    var s' := LoadOrStore(s, k).(now := s.now + 1);
    assert BudgetOk(s, k);
    assert k !in s.active && k !in s.offSince by {
      assert k in s.active ==> ActiveOk(s, k);
      assert k in s.offSince ==> OffOk(s, k);
    }
    StoreChanges(s, k);
    InstsFrame(s, s', k);
    StepOfKey(s, s', k);
  }

  lemma LoadKeepsInv(s: State, k: Key)
    requires Inv(s) && k in s.ops && s.ops[k].pc.SubLoad? && k.name in s.topics
    ensures Inv(LoadOrStore(s, k).(now := s.now + 1))
  {
    assert BudgetOk(s, k);
    GotoKeepsInv(s, k, SubAdd(s.topics[k.name]));
  }

  lemma AddKeepsInv(s: State, k: Key)
    requires Inv(s) && k in s.ops && s.ops[k].pc.SubAdd?
    ensures Inv(Apply(s, Advance(k)))
  {
    assert OpOk(s, k) && BudgetOk(s, k);
    MemberStep(s, Apply(s, Advance(k)), k, s.ops[k].pc.t);
  }

  /** The check succeeds: the subscription stands, in an instance that is not deleted. */
  lemma ReturnKeepsInv(s: State, k: Key, t: Inst, addedAt: nat)
    requires Inv(s) && k in s.ops && s.ops[k].pc == SubCheck(t, addedAt) && Current(s, k.name, t)
    ensures Inv(Check(s, k, t, addedAt).(now := s.now + 1))
  {
    assert OpOk(s, k) && InstOk(s, t);
    QuietStep(s, Check(s, k, t, addedAt).(now := s.now + 1), k);
  }

  lemma RetryKeepsInv(s: State, k: Key, t: Inst, addedAt: nat)
    requires Inv(s) && k in s.ops && s.ops[k].pc == SubCheck(t, addedAt) && !Current(s, k.name, t)
    ensures Inv(Check(s, k, t, addedAt).(now := s.now + 1))
  {
    assert OpOk(s, k) && BudgetOk(s, k);
    GotoKeepsInv(s, k, SubUndo(t));
  }

  lemma UndoKeepsInv(s: State, k: Key)
    requires Inv(s) && k in s.ops && s.ops[k].pc.SubUndo?
    ensures Inv(Apply(s, Advance(k)))
  {
    assert OpOk(s, k) && BudgetOk(s, k);
    MemberStep(s, Apply(s, Advance(k)), k, s.ops[k].pc.t);
  }

  lemma UnsubLoadKeepsInv(s: State, k: Key)
    requires Inv(s) && k in s.ops && s.ops[k].pc.UnsubLoad?
    ensures Inv(Apply(s, Advance(k)))
  {
    if k.name in s.topics {
      GotoKeepsInv(s, k, UnsubRemove(s.topics[k.name]));
    } else {
      EndKeepsInv(s, k);
    }
  }

  lemma RemovedKeepsInv(s: State, k: Key, t: Inst)
    requires Inv(s) && k in s.ops && s.ops[k].pc == UnsubRemove(t) && t < |s.insts| && s.insts[t].name == k.name
    ensures Inv(Goto(SetSubs(s, t, s.insts[t].subs - {k.sub}), k, UnsubTest(t)).(now := s.now + 1))
  {
    assert OpOk(s, k);
    MemberStep(s, Goto(SetSubs(s, t, s.insts[t].subs - {k.sub}), k, UnsubTest(t)).(now := s.now + 1), k, t);
  }

  lemma RemoveKeepsInv(s: State, k: Key)
    requires Inv(s) && k in s.ops && s.ops[k].pc.UnsubRemove?
    ensures Inv(Apply(s, Advance(k)))
  {
    assert OpOk(s, k);
    RemovedKeepsInv(s, k, s.ops[k].pc.t);
  }

  /** The instance is empty: from here on, every member's add is later than this look. */
  lemma EmptyKeepsInv(s: State, k: Key, t: Inst)
    requires Inv(s) && k in s.ops && s.ops[k].pc == UnsubTest(t) && t < |s.insts| && s.insts[t].subs == map[]
    ensures Inv(Goto(s, k, UnsubDelete(t, s.now)).(now := s.now + 1))
  {
    assert OpOk(s, k);
    GotoKeepsInv(s, k, UnsubDelete(t, s.now));
  }

  lemma TestKeepsInv(s: State, k: Key)
    requires Inv(s) && k in s.ops && s.ops[k].pc.UnsubTest?
    ensures Inv(Apply(s, Advance(k)))
  {
    assert OpOk(s, k);
    if s.insts[s.ops[k].pc.t].subs == map[] {
      EmptyKeepsInv(s, k, s.ops[k].pc.t);
    } else {
      EndKeepsInv(s, k);
    }
  }

  lemma DeleteChanges(s: State, k: Key, t: Inst, seenEmpty: nat)
    requires Inv(s) && k in s.ops && s.ops[k].pc == UnsubDelete(t, seenEmpty) && Current(s, k.name, t)
    ensures ChangedBy(s, Delete(s, k, t, seenEmpty).(now := s.now + 1), k)
  {
    DeletedIsSame(s, k, t, seenEmpty);
    DeletedMap(s, k, t, seenEmpty);
    DeletedInsts(s, k, t, seenEmpty);
  }

  lemma DeletedInsts(s: State, k: Key, t: Inst, seenEmpty: nat)
    requires t < |s.insts| && SameBut(s.insts[t], Delete(s, k, t, seenEmpty).insts[t], k, s.now)
    ensures InstsChanged(s, Delete(s, k, t, seenEmpty).(now := s.now + 1), k)
  {
    var s' := Delete(s, k, t, seenEmpty);
    forall x | 0 <= x < |s.insts| ensures SameBut(s.insts[x], s'.insts[x], k, s.now) {
      assert x != t ==> s'.insts[x] == s.insts[x];
    }
  }

  lemma DeletedMap(s: State, k: Key, t: Inst, seenEmpty: nat)
    requires t < |s.insts| && Current(s, k.name, t)
    ensures MapChanged(s, Delete(s, k, t, seenEmpty).(now := s.now + 1), k)
  {}

  lemma DeletedIsSame(s: State, k: Key, t: Inst, seenEmpty: nat)
    requires Inv(s) && k in s.ops && s.ops[k].pc == UnsubDelete(t, seenEmpty) && Current(s, k.name, t)
    ensures t < |s.insts| && SameBut(s.insts[t], Delete(s, k, t, seenEmpty).insts[t], k, s.now)
  {
    assert OpOk(s, k) && InstOk(s, t);
    assert DeletedNow(s.insts[t], Delete(s, k, t, seenEmpty).insts[t], s.now);
  }

  /** The compare-and-delete finds the instance it saw empty. */
  lemma DeleteKeepsInv(s: State, k: Key, t: Inst, seenEmpty: nat)
    requires Inv(s) && k in s.ops && s.ops[k].pc == UnsubDelete(t, seenEmpty) && Current(s, k.name, t)
    ensures Inv(Delete(s, k, t, seenEmpty).(now := s.now + 1))
  {
    var s' := Delete(s, k, t, seenEmpty).(now := s.now + 1);
    assert OpOk(s, k) && InstOk(s, t);
    DeleteChanges(s, k, t, seenEmpty);
    assert k in s.active ==> ActiveOk(s, k);
    InstsFrame(s, s', k);
    StepOfKey(s, s', k);
  }

  lemma MissKeepsInv(s: State, k: Key, t: Inst, seenEmpty: nat)
    requires Inv(s) && k in s.ops && s.ops[k].pc == UnsubDelete(t, seenEmpty) && !Current(s, k.name, t)
    ensures Inv(Delete(s, k, t, seenEmpty).(now := s.now + 1))
  {
    assert OpOk(s, k);
    EndKeepsInv(s, k);
  }

  lemma LoadOrStoreApplied(s: State, k: Key)
    requires k in s.ops && s.ops[k].pc.SubLoad?
    ensures Apply(s, Advance(k)) == LoadOrStore(s, k).(now := s.now + 1)
  {}

  lemma CheckApplied(s: State, k: Key, t: Inst, addedAt: nat)
    requires k in s.ops && s.ops[k].pc == SubCheck(t, addedAt) && t < |s.insts|
    ensures Apply(s, Advance(k)) == Check(s, k, t, addedAt).(now := s.now + 1)
  {}

  lemma LoadOrStoreKeepsInv(s: State, k: Key)
    requires Inv(s) && k in s.ops && s.ops[k].pc.SubLoad?
    ensures Inv(Apply(s, Advance(k)))
  {
    LoadOrStoreApplied(s, k);
    if k.name in s.topics {
      LoadKeepsInv(s, k);
    } else {
      StoreKeepsInv(s, k);
    }
  }

  lemma CheckKeepsInv(s: State, k: Key, t: Inst, addedAt: nat)
    requires Inv(s) && k in s.ops && s.ops[k].pc == SubCheck(t, addedAt)
    ensures Enabled(s, Advance(k)) && Inv(Apply(s, Advance(k)))
  {
    assert OpOk(s, k);
    CheckApplied(s, k, t, addedAt);
    if Current(s, k.name, t) {
      ReturnKeepsInv(s, k, t, addedAt);
    } else {
      RetryKeepsInv(s, k, t, addedAt);
    }
  }

  lemma AdvanceSubscribeKeepsInv(s: State, k: Key)
    requires Inv(s) && k in s.ops && Subscribing(s.ops[k].pc)
    ensures Enabled(s, Advance(k)) && Inv(Apply(s, Advance(k)))
  {
    assert OpOk(s, k);
    match s.ops[k].pc
    case SubLoad => LoadOrStoreKeepsInv(s, k);
    case SubAdd(_) => AddKeepsInv(s, k);
    case SubCheck(t, addedAt) => CheckKeepsInv(s, k, t, addedAt);
    case SubUndo(_) => UndoKeepsInv(s, k);
  }

  lemma AdvanceUnsubscribeKeepsInv(s: State, k: Key)
    requires Inv(s) && k in s.ops && !Subscribing(s.ops[k].pc)
    ensures Enabled(s, Advance(k)) && Inv(Apply(s, Advance(k)))
  {
    assert OpOk(s, k);
    match s.ops[k].pc
    case UnsubLoad => UnsubLoadKeepsInv(s, k);
    case UnsubRemove(_) => RemoveKeepsInv(s, k);
    case UnsubTest(_) => TestKeepsInv(s, k);
    case UnsubDelete(t, seenEmpty) =>
      if Current(s, k.name, t) {
        DeleteKeepsInv(s, k, t, seenEmpty);
      } else {
        MissKeepsInv(s, k, t, seenEmpty);
      }
  }

  lemma AdvanceKeepsInv(s: State, k: Key)
    requires Inv(s) && k in s.ops
    ensures Enabled(s, Advance(k)) && Inv(Apply(s, Advance(k)))
  {
    if Subscribing(s.ops[k].pc) {
      AdvanceSubscribeKeepsInv(s, k);
    } else {
      AdvanceUnsubscribeKeepsInv(s, k);
    }
  }

  /** A step of a publish touches nothing but itself and the record of what it saw and delivered. */
  lemma PublishStep(s: State, s': State, p: PubId)
    requires Inv(s) && s.now < s'.now
    requires s' == s.(now := s'.now, pubs := s'.pubs, snaps := s'.snaps, delivered := s'.delivered)
    requires forall q :: q != p && q in s'.pubs ==> q in s.pubs && s'.pubs[q] == s.pubs[q]
    requires forall q :: q != p ==> (q in s'.snaps <==> q in s.snaps) && (q in s.snaps ==> s'.snaps[q] == s.snaps[q])
    requires p in s'.pubs ==> PubOk(s', p)
    requires SnapsOk(s')
    ensures Inv(s')
  {
    forall x | x in s'.ops ensures OpOk(s', x) && BudgetOk(s', x) {
      assert OpOk(s, x) && BudgetOk(s, x);
    }
    forall x | x in s'.active ensures ActiveOk(s', x) {
      assert ActiveOk(s, x);
    }
    forall x | x in s'.offSince ensures OffOk(s', x) {
      assert OffOk(s, x);
    }
    forall q | q in s'.pubs ensures PubOk(s', q) {
      assert q != p ==> PubOk(s, q);
    }
    forall t | 0 <= t < |s'.insts| ensures InstOk(s', t) {
      assert InstOk(s, t);
    }
  }

  /** The snapshot misses everyone who is off since before the publish started. */
  lemma SnapshotKeepsInv(s: State, p: PubId)
    requires Inv(s) && Enabled(s, AdvancePublish(p)) && s.pubs[p].PubSnap?
    ensures Inv(Apply(s, AdvancePublish(p)))
  {
    var s' := AdvancePub(s, p).(now := s.now + 1);
    assert PubOk(s, p);
    assert p in s'.snaps && s'.snaps[p].members !! s'.snaps[p].off;
    forall q, m ensures DeliveredTo(s', q, m) <==> DeliveredTo(s, q, m) {}
    PublishStep(s, s', p);
  }

  lemma PubLoadKeepsInv(s: State, p: PubId, n: Name, started: nat)
    requires Inv(s) && p in s.pubs && s.pubs[p] == PubLoad(n, started) && n in s.topics
    ensures Inv(s.(pubs := s.pubs[p := PubSnap(s.topics[n], started)], now := s.now + 1))
  {
    var s' := s.(pubs := s.pubs[p := PubSnap(s.topics[n], started)], now := s.now + 1);
    assert PubOk(s, p);
    forall k | k in s.offSince ensures Gone(s, k) {
      assert OffOk(s, k);
    }
    assert PubOk(s', p);
    forall q, m ensures DeliveredTo(s', q, m) <==> DeliveredTo(s, q, m) {}
    PublishStep(s, s', p);
  }

  /** A publish ends: its topic was not found, or all its deliveries are done. */
  lemma DoneKeepsInv(s: State, p: PubId)
    requires Inv(s) && p in s.pubs && (s.pubs[p].PubSend? ==> s.pubs[p].todo == {})
    ensures Inv(s.(pubs := s.pubs - {p}, now := s.now + 1))
  {
    var s' := s.(pubs := s.pubs - {p}, now := s.now + 1);
    forall q, m ensures DeliveredTo(s', q, m) <==> DeliveredTo(s, q, m) {}
    PublishStep(s, s', p);
  }

  lemma AdvancePublishKeepsInv(s: State, p: PubId)
    requires Inv(s) && Enabled(s, AdvancePublish(p))
    ensures Inv(Apply(s, AdvancePublish(p)))
  {
    match s.pubs[p]
    case PubSnap(_, _) => SnapshotKeepsInv(s, p);
    case PubLoad(n, started) => LoadedKeepsInv(s, p, n, started);
    case PubSend(_) => DoneKeepsInv(s, p);
  }

  lemma LoadedKeepsInv(s: State, p: PubId, n: Name, started: nat)
    requires Inv(s) && p in s.pubs && s.pubs[p] == PubLoad(n, started)
    ensures Inv(Apply(s, AdvancePublish(p)))
  {
    if n in s.topics {
      PubLoadKeepsInv(s, p, n, started);
    } else {
      DoneKeepsInv(s, p);
    }
  }

  lemma StartKeepsInv(s: State, k: Key, pc: Pc)
    requires Inv(s) && k !in s.ops && (pc.SubLoad? || pc.UnsubLoad?)
    ensures Inv(Start(s, k, pc).(now := s.now + 1))
  {
    QuietStep(s, Start(s, k, pc).(now := s.now + 1), k);
  }

  lemma StartPublishKeepsInv(s: State, p: PubId, n: Name)
    requires Inv(s) && Enabled(s, StartPublish(p, n))
    ensures Inv(Apply(s, StartPublish(p, n)))
  {
    var s' := Apply(s, StartPublish(p, n));
    forall q, m ensures DeliveredTo(s', q, m) <==> DeliveredTo(s, q, m) {}
    PublishStep(s, s', p);
  }

  lemma DeliverKeepsInv(s: State, p: PubId, sub: SubId)
    requires Inv(s) && Enabled(s, Deliver(p, sub))
    ensures Inv(Apply(s, Deliver(p, sub)))
  {
    assert PubOk(s, p);
    var s' := Apply(s, Deliver(p, sub));
    forall q, m ensures DeliveredTo(s', q, m) <==> DeliveredTo(s, q, m) || (q == p && m == sub) {}
    PublishStep(s, s', p);
  }

  lemma StepKeepsInv(s: State, step: Step)
    requires Inv(s)
    ensures Inv(Next(s, step))
  {
    if Enabled(s, step) {
      match step
      case StartSubscribe(k) => StartKeepsInv(s, k, SubLoad);
      case StartUnsubscribe(k) => StartKeepsInv(s, k, UnsubLoad);
      case Advance(k) => AdvanceKeepsInv(s, k);
      case StartPublish(p, n) => StartPublishKeepsInv(s, p, n);
      case AdvancePublish(p) => AdvancePublishKeepsInv(s, p);
      case Deliver(p, sub) => DeliverKeepsInv(s, p, sub);
    }
  }

  lemma {:induction false} RunsKeepInv(s: State, steps: seq<Step>)
    requires Inv(s)
    ensures Inv(Exec(s, steps))
    decreases |steps|
  {
    if steps == [] {
    } else {
      StepKeepsInv(s, steps[0]);
      RunsKeepInv(Next(s, steps[0]), steps[1..]);
    }
  }

  // ---------------------------------------------------------------- whole runs

  /**
   Exact account of lost subscriptions, in every interleaving: a subscription whose Subscribe
   returned and that was not unsubscribed is a member of the instance it was added to, and that
   is the map's current instance unless an Unsubscribe saw the instance empty before the add and
   deleted it after the subscriber's check.
   */
  lemma LostSubscriptionsExactly(steps: seq<Step>, k: Key)
    requires k in Exec(INIT, steps).active
    ensures var s := Exec(INIT, steps);
            var h := s.active[k];
            && h.t < |s.insts| && s.insts[h.t].name == k.name && k.sub in s.insts[h.t].subs
            && (Current(s, k.name, h.t) <==> s.insts[h.t].deletion.None?)
            && (s.insts[h.t].deletion.Some? ==>
                  && s.insts[h.t].deletion.value.seenEmpty < h.addedAt
                  && h.addedAt < h.checkedAt < s.insts[h.t].deletion.value.at)
  {
    var s := Exec(INIT, steps);
    RunsKeepInv(INIT, steps);
    assert ActiveOk(s, k) && InstOk(s, s.active[k].t);
  }

  /**
   Subscribe terminates once the topic is no longer deleted under it: in every interleaving the
   number of times a call went back to the top of its loop is at most the number of deletions of
   its topic since it began.
   */
  lemma RetriesArePaidByDeletions(steps: seq<Step>, k: Key)
    requires k in Exec(INIT, steps).ops && Subscribing(Exec(INIT, steps).ops[k].pc)
    ensures var s := Exec(INIT, steps);
            s.ops[k].retries <= Deletes(s, k.name) - s.ops[k].deletesBefore
  {
    RunsKeepInv(INIT, steps);
    assert BudgetOk(Exec(INIT, steps), k);
  }

  /**
   Finality of Unsubscribe, in every interleaving: a subscriber whose Unsubscribe returned before
   a publish started, and that has not begun a new Subscribe when the publish takes its snapshot,
   is not in the snapshot; and a publish delivers only to its snapshot.
   */
  lemma UnsubscribeIsFinal(steps: seq<Step>, p: PubId, k: Key)
    ensures var s := Exec(INIT, steps);
            && (p in s.pubs && s.pubs[p].PubSnap? && Enabled(s, AdvancePublish(p)) && k in s.offSince
                && k.name == s.insts[s.pubs[p].t].name && s.offSince[k] <= s.pubs[p].started ==>
                  k.sub !in Next(s, AdvancePublish(p)).pubs[p].todo)
            && ((p, k.sub) in s.delivered ==> p in s.snaps && k.sub in s.snaps[p].members && k.sub !in s.snaps[p].off)
  {
    var s := Exec(INIT, steps);
    RunsKeepInv(INIT, steps);
    if p in s.pubs {
      assert PubOk(s, p);
    }
    assert s.delivered[(p, k.sub)] == if DeliveredTo(s, p, k.sub) then 1 else 0;
  }

  /**
   Delivery, in every interleaving: a publish delivers to each member of its snapshot at most once
   and to nobody else, and once it has ended exactly once.
   */
  lemma PublishDeliversOnce(steps: seq<Step>, p: PubId, m: SubId)
    ensures var s := Exec(INIT, steps);
            && s.delivered[(p, m)] <= (if p in s.snaps && m in s.snaps[p].members then 1 else 0)
            && (p in s.snaps && p !in s.pubs ==> s.delivered[(p, m)] == if m in s.snaps[p].members then 1 else 0)
  {
    var s := Exec(INIT, steps);
    RunsKeepInv(INIT, steps);
    assert s.delivered[(p, m)] == if DeliveredTo(s, p, m) then 1 else 0;
  }

  // ---------------------------------------------------------------- runs at the edge

  ghost predicate Leads(s: State, s': State) {
    exists steps :: Exec(s, steps) == s'
  }

  lemma LeadsByStep(s: State, step: Step)
    ensures Leads(s, Next(s, step))
  {
    assert [step][1..] == [];
    assert Exec(s, [step]) == Next(s, step);
  }

  lemma {:induction false} ExecAppend(s: State, first: seq<Step>, second: seq<Step>)
    ensures Exec(s, first + second) == Exec(Exec(s, first), second)
    decreases |first|
  {
    if first == [] {
      assert first + second == second;
    } else {
      assert (first + second)[1..] == first[1..] + second;
      ExecAppend(Next(s, first[0]), first[1..], second);
    }
  }

  lemma LeadsTrans(s: State, s': State, s'': State)
    requires Leads(s, s') && Leads(s', s'')
    ensures Leads(s, s'')
  {
    var first :| Exec(s, first) == s';
    var second :| Exec(s', second) == s'';
    ExecAppend(s, first, second);
  }

  lemma StartLeads(s: State, k: Key)
    requires k !in s.ops
    ensures Leads(s, Start(s, k, SubLoad).(now := s.now + 1))
  {
    LeadsByStep(s, StartSubscribe(k));
  }

  lemma LoadLeads(s: State, k: Key)
    requires k in s.ops && s.ops[k].pc == SubLoad && k.name in s.topics
    ensures Leads(s, Goto(s, k, SubAdd(s.topics[k.name])).(now := s.now + 1))
  {
    LeadsByStep(s, Advance(k));
  }

  lemma AddLeads(s: State, k: Key, t: Inst)
    requires k in s.ops && s.ops[k].pc == SubAdd(t) && t < |s.insts|
    ensures Leads(s, Add(s, k, t).(now := s.now + 1))
  {
    LeadsByStep(s, Advance(k));
  }

  lemma ReturnLeads(s: State, k: Key, t: Inst, addedAt: nat)
    requires k in s.ops && s.ops[k].pc == SubCheck(t, addedAt) && t < |s.insts| && Current(s, k.name, t)
    ensures Leads(s, s.(ops := s.ops - {k}, active := s.active[k := Home(t, addedAt, s.now)], now := s.now + 1))
  {
    LeadsByStep(s, Advance(k));
  }

  /** A subscribe run from start to end while the map holds an instance of its topic. */
  lemma SoloSubscribe(s: State, k: Key) returns (s': State)
    requires k !in s.ops && k.name in s.topics && s.topics[k.name] < |s.insts|
    ensures Leads(s, s') && k in s'.active && k !in s'.ops && |s'.insts| == |s.insts|
    ensures s'.topics == s.topics && s'.pubs == s.pubs && s'.snaps == s.snaps
    ensures k.sub in s'.insts[s.topics[k.name]].subs
    ensures forall x :: x != k ==> (x in s'.ops <==> x in s.ops) && (x in s.ops ==> s'.ops[x] == s.ops[x])
  {
    var t := s.topics[k.name];
    var s2 := SubscribeLoaded(s, k);
    s' := SubscribeAdded(s2, k, t);
    LeadsTrans(s, s2, s');
  }

  lemma SubscribeLoaded(s: State, k: Key) returns (s2: State)
    requires k !in s.ops && k.name in s.topics && s.topics[k.name] < |s.insts|
    ensures Leads(s, s2) && k in s2.ops && s2.ops[k].pc == SubAdd(s.topics[k.name]) && s2.insts == s.insts
    ensures s2.topics == s.topics && s2.pubs == s.pubs && s2.snaps == s.snaps
    ensures forall x :: x != k ==> (x in s2.ops <==> x in s.ops) && (x in s.ops ==> s2.ops[x] == s.ops[x])
  {
    var s1 := Start(s, k, SubLoad).(now := s.now + 1);
    StartLeads(s, k);
    s2 := Goto(s1, k, SubAdd(s.topics[k.name])).(now := s1.now + 1);
    LoadLeads(s1, k);
    LeadsTrans(s, s1, s2);
  }

  lemma SubscribeAdded(s: State, k: Key, t: Inst) returns (s': State)
    requires k in s.ops && s.ops[k].pc == SubAdd(t) && Current(s, k.name, t) && t < |s.insts|
    ensures Leads(s, s') && k in s'.active && k !in s'.ops && |s'.insts| == |s.insts|
    ensures s'.topics == s.topics && s'.pubs == s.pubs && s'.snaps == s.snaps && k.sub in s'.insts[t].subs
    ensures forall x :: x != k ==> (x in s'.ops <==> x in s.ops) && (x in s.ops ==> s'.ops[x] == s.ops[x])
  {
    var s1 := Add(s, k, t).(now := s.now + 1);
    AddLeads(s, k, t);
    s' := s1.(ops := s1.ops - {k}, active := s1.active[k := Home(t, s.now, s1.now)], now := s1.now + 1);
    ReturnLeads(s1, k, t, s.now);
    LeadsTrans(s, s1, s');
  }

  lemma DeleteLeads(s: State, k: Key, t: Inst, seenEmpty: nat)
    requires k in s.ops && s.ops[k].pc == UnsubDelete(t, seenEmpty) && t < |s.insts|
    ensures Leads(s, Delete(s, k, t, seenEmpty).(now := s.now + 1))
  {
    LeadsByStep(s, Advance(k));
  }

  /** The gap: a subscribe that runs between the test and the delete of an Unsubscribe is lost. */
  lemma SubscribeInTheGapIsLost(s: State, leaver: Key, k: Key, t: Inst, seenEmpty: nat) returns (s': State)
    requires leaver in s.ops && s.ops[leaver].pc == UnsubDelete(t, seenEmpty) && Current(s, k.name, t)
    requires t < |s.insts| && leaver.name == k.name && leaver != k && k !in s.ops
    ensures Leads(s, s') && k in s'.active && k !in s'.ops && k.name !in s'.topics
  {
    var s1 := SoloSubscribe(s, k);
    DeleteLeads(s1, leaver, t, seenEmpty);
    s' := Delete(s1, leaver, t, seenEmpty).(now := s1.now + 1);
    LeadsTrans(s, s1, s');
  }

  lemma SnapLeads(s: State, p: PubId)
    requires p in s.pubs && s.pubs[p].PubSnap? && s.pubs[p].t < |s.insts|
    ensures Leads(s, AdvancePub(s, p).(now := s.now + 1))
  {
    LeadsByStep(s, AdvancePublish(p));
  }

  lemma DeliverLeads(s: State, p: PubId, m: SubId) returns (s': State)
    requires p in s.pubs && s.pubs[p].PubSend? && m in s.pubs[p].todo
    ensures Leads(s, s') && (p, m) in s'.delivered
  {
    LeadsByStep(s, Deliver(p, m));
    s' := Apply(s, Deliver(p, m));
  }

  /**
   A publish that started while k was off can still deliver to k, if k subscribes again before the
   snapshot: so finality is about the snapshot, not about the start of the publish.
   */
  lemma ResubscribedBeforeSnapshotIsDelivered(s: State, p: PubId, k: Key) returns (s': State)
    requires k !in s.ops && k in s.offSince && k.name in s.topics
    requires p in s.pubs && s.pubs[p].PubSnap? && s.pubs[p].t == s.topics[k.name] < |s.insts|
    requires s.offSince[k] <= s.pubs[p].started
    ensures Leads(s, s') && (p, k.sub) in s'.delivered
  {
    var s1 := SoloSubscribe(s, k);
    SnapLeads(s1, p);
    var s2 := AdvancePub(s1, p).(now := s1.now + 1);
    LeadsTrans(s, s1, s2);
    s' := DeliverLeads(s2, p, k.sub);
    LeadsTrans(s, s2, s');
  }
}
