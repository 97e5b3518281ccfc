/**
 The interleaved bus, run one operation at a time, is the map from topic to subscriber ids: a
 whole subscribe or unsubscribe takes the protocol exactly where the map operation goes.
 */
module BusRefinement {
  import opened Base
  import opened BusProtocol
  import Spec = BusModel

  datatype Request = Subscribe(k: Key) | Unsubscribe(k: Key)

  /** A request's steps with nothing in between; those after its end are not enabled and do nothing. */
  function Block(q: Request): (steps: seq<Step>) {
    match q
    case Subscribe(k) => [StartSubscribe(k), Advance(k), Advance(k), Advance(k)]
    case Unsubscribe(k) => [StartUnsubscribe(k), Advance(k), Advance(k), Advance(k), Advance(k)]
  }

  function Blocks(qs: seq<Request>): (steps: seq<Step>) {
    if qs == [] then [] else Block(qs[0]) + Blocks(qs[1..])
  }

  function Effect(b: Spec.Bus, q: Request): (after: Spec.Bus) {
    match q
    case Subscribe(k) => Spec.Subscribed(b, k.name, k.sub)
    case Unsubscribe(k) => Spec.Unsubscribed(b, k.name, k.sub)
  }

  function Effects(b: Spec.Bus, qs: seq<Request>): (after: Spec.Bus)
    decreases |qs|
  {
    if qs == [] then b else Effects(Effect(b, qs[0]), qs[1..])
  }

  /** The members of the instance the map holds, by topic. */
  ghost function View(s: State): (b: Spec.Bus) {
    map n | n in s.topics && s.topics[n] < |s.insts| :: s.insts[s.topics[n]].subs.Keys
  }

  /** No operation is in flight, and no topic is stored empty. */
  ghost predicate Quiet(s: State) {
    s.ops == map[] && InstsOk(s) && Spec.NoEmptyTopic(View(s))
  }

  /** A subscriber's operation in a bus that is otherwise quiet, about to take its next step. */
  ghost predicate At(s: State, k: Key, pc: Pc) {
    InstsOk(s) && k in s.ops && s.ops.Keys == {k} && s.ops[k].pc == pc
  }

  /** No instance changed but t, which is as good as before. */
  lemma InstsStay(s: State, s': State, t: Inst)
    requires InstsOk(s) && s.now <= s'.now && s'.topics == s.topics && |s'.insts| == |s.insts|
    requires forall x :: 0 <= x < |s.insts| && x != t ==> s'.insts[x] == s.insts[x]
    requires t < |s.insts| ==> s'.insts[t].name == s.insts[t].name && InstOk(s', t)
    ensures InstsOk(s')
    ensures forall n :: n in View(s) <==> n in View(s')
    ensures forall n :: n in View(s) && s.topics[n] != t ==> View(s')[n] == View(s)[n]
  {
    forall x | 0 <= x < |s'.insts| ensures InstOk(s', x) {
      assert InstOk(s, x);
    }
  }

  /** The subscriber's unsubscribe has returned. */
  ghost predicate Off(s: State, k: Key) {
    k in s.offSince && s.offSince[k] < s.now
  }

  lemma StartAt(s: State, k: Key, pc: Pc)
    requires Quiet(s) && (pc.SubLoad? || pc.UnsubLoad?)
    ensures var s' := Start(s, k, pc).(now := s.now + 1);
            At(s', k, pc) && View(s') == View(s)
  {
    InstsStay(s, Start(s, k, pc).(now := s.now + 1), |s.insts|);
  }

  lemma LoadAt(s: State, k: Key)
    requires At(s, k, SubLoad) && k.name in s.topics
    ensures var s' := LoadOrStore(s, k).(now := s.now + 1);
            && s'.topics == s.topics && At(s', k, SubAdd(s.topics[k.name]))
            && View(s') == View(s)[k.name := Spec.Members(View(s), k.name)]
  {
    InstsStay(s, LoadOrStore(s, k).(now := s.now + 1), |s.insts|);
  }

  lemma StoreKeepsInsts(s: State, k: Key)
    requires InstsOk(s) && k in s.ops && k.name !in s.topics
    ensures InstsOk(LoadOrStore(s, k).(now := s.now + 1))
  {
    var s' := LoadOrStore(s, k).(now := s.now + 1);
    forall t | 0 <= t < |s'.insts| ensures InstOk(s', t) {
      if t < |s.insts| {
        assert InstOk(s, t);
      }
    }
  }

  lemma StoreAt(s: State, k: Key)
    requires At(s, k, SubLoad) && k.name !in s.topics
    ensures var s' := LoadOrStore(s, k).(now := s.now + 1);
            && k.name in s'.topics && At(s', k, SubAdd(s'.topics[k.name]))
            && View(s') == View(s)[k.name := Spec.Members(View(s), k.name)]
  {
    var s' := LoadOrStore(s, k).(now := s.now + 1);
    StoreKeepsInsts(s, k);
    var b := View(s)[k.name := {}];
    forall n ensures n in View(s') <==> n in b {}
    forall n | n in b ensures View(s')[n] == b[n] {
      if n == k.name {
        assert s'.insts[|s.insts|].subs.Keys == {};
      } else {
        assert s'.insts[s.topics[n]] == s.insts[s.topics[n]];
      }
    }
  }

  lemma AddAt(s: State, k: Key, t: Inst)
    requires Current(s, k.name, t) && At(s, k, SubAdd(t))
    ensures t < |s.insts|
    ensures var s' := Add(s, k, t).(now := s.now + 1);
            && s'.topics == s.topics && At(s', k, SubCheck(t, s.now))
            && View(s') == Spec.Subscribed(View(s), k.name, k.sub)
  {
    var s' := Add(s, k, t).(now := s.now + 1);
    assert InstOk(s, t);
    InstsStay(s, s', t);
    assert s'.insts[t].subs.Keys == s.insts[t].subs.Keys + {k.sub};
    assert forall n :: n in s.topics && n != k.name ==> s.topics[n] != t;
  }

  lemma CheckAt(s: State, k: Key, t: Inst, addedAt: nat)
    requires At(s, k, SubCheck(t, addedAt)) && Current(s, k.name, t)
    ensures var s' := Check(s, k, t, addedAt).(now := s.now + 1);
            s'.ops == map[] && InstsOk(s') && View(s') == View(s) && k in s'.active
  {
    assert s.ops - {k} == map[];
    InstsStay(s, Check(s, k, t, addedAt).(now := s.now + 1), |s.insts|);
  }

  /** The steps of a subscribe, as the protocol takes them. */
  lemma NextIs(s: State, k: Key)
    requires k in s.ops && Enabled(s, Advance(k))
    ensures Next(s, Advance(k)) == AdvanceOp(s, k).(now := s.now + 1)
  {}

  /** What the protocol does with the steps of a block. */
  lemma ExecFour(s: State, first: Step, more: Step, s1: State, s2: State, s3: State, s4: State)
    requires s1 == Next(s, first) && s2 == Next(s1, more) && s3 == Next(s2, more) && s4 == Next(s3, more)
    ensures Exec(s, [first, more, more, more]) == s4
  {
    assert Exec(s3, [more]) == s4 by {
      assert [more][1..] == [];
    }
    assert [more, more][1..] == [more] && [more, more, more][1..] == [more, more];
    assert [first, more, more, more][1..] == [more, more, more];
    assert Exec(s2, [more, more]) == Exec(s3, [more]);
    assert Exec(s1, [more, more, more]) == Exec(s2, [more, more]);
  }

  lemma ExecFive(s: State, first: Step, more: Step, s1: State, s2: State, s3: State, s4: State, s5: State)
    requires s1 == Next(s, first) && s2 == Next(s1, more) && s3 == Next(s2, more)
    requires s4 == Next(s3, more) && s5 == Next(s4, more)
    ensures Exec(s, [first, more, more, more, more]) == s5
  {
    assert [first, more, more, more, more][1..] == [more] + [more, more, more];
    assert [more] + [more, more, more] == [more, more, more, more];
    ExecFour(s1, more, more, s2, s3, s4, s5);
  }

  /** The first step of either operation. */
  lemma StartStep(s: State, k: Key) returns (sub: State, unsub: State)
    requires Quiet(s)
    ensures sub == Next(s, StartSubscribe(k)) && At(sub, k, SubLoad) && View(sub) == View(s)
    ensures unsub == Next(s, StartUnsubscribe(k)) && At(unsub, k, UnsubLoad) && View(unsub) == View(s)
  {
    StartAt(s, k, SubLoad);
    StartAt(s, k, UnsubLoad);
    sub := Start(s, k, SubLoad).(now := s.now + 1);
    unsub := Start(s, k, UnsubLoad).(now := s.now + 1);
  }

  lemma LoadOrStoreAt(s: State, k: Key) returns (s': State)
    requires At(s, k, SubLoad)
    ensures s' == Next(s, Advance(k)) && k.name in s'.topics && At(s', k, SubAdd(s'.topics[k.name]))
    ensures View(s') == View(s)[k.name := Spec.Members(View(s), k.name)]
  {
    NextIs(s, k);
    s' := LoadOrStore(s, k).(now := s.now + 1);
    if k.name in s.topics {
      LoadAt(s, k);
    } else {
      StoreAt(s, k);
    }
  }

  lemma AddStep(s: State, k: Key) returns (s': State)
    requires k.name in s.topics && At(s, k, SubAdd(s.topics[k.name]))
    ensures s' == Next(s, Advance(k)) && s'.topics == s.topics && At(s', k, SubCheck(s.topics[k.name], s.now))
    ensures View(s') == Spec.Subscribed(View(s), k.name, k.sub)
  {
    AddAt(s, k, s.topics[k.name]);
    NextIs(s, k);
    s' := Add(s, k, s.topics[k.name]).(now := s.now + 1);
  }

  lemma CheckStep(s: State, k: Key, t: Inst, addedAt: nat) returns (s': State)
    requires At(s, k, SubCheck(t, addedAt)) && Current(s, k.name, t)
    ensures s' == Next(s, Advance(k)) && s'.ops == map[] && InstsOk(s') && View(s') == View(s) && k in s'.active
  {
    CheckAt(s, k, t, addedAt);
    assert t < |s.insts|;
    NextIs(s, k);
    s' := Check(s, k, t, addedAt).(now := s.now + 1);
  }

  /** A whole subscribe, whatever the map holds: it returns, and its subscription stands. */
  lemma SubscribeAlone(s: State, k: Key)
    requires Quiet(s)
    ensures var s' := Exec(s, Block(Subscribe(k)));
            Quiet(s') && View(s') == Spec.Subscribed(View(s), k.name, k.sub) && k in s'.active
  {
    var s1, _ := StartStep(s, k);
    var s2 := LoadOrStoreAt(s1, k);
    var s3 := AddStep(s2, k);
    var s' := CheckStep(s3, k, s2.topics[k.name], s2.now);
    Spec.SubscribeStores(View(s), k.name, k.sub);
    ExecFour(s, StartSubscribe(k), Advance(k), s1, s2, s3, s');
  }

  // ---------------------------------------------------------------- unsubscribe

  lemma UnsubscribeAbsent(s: State, k: Key)
    requires At(s, k, UnsubLoad) && k.name !in s.topics
    ensures var s' := Next(s, Advance(k));
            s'.ops == map[] && InstsOk(s') && View(s') == View(s) && Off(s', k)
  {
    assert s.ops - {k} == map[];
    InstsStay(s, EndUnsubscribe(s, k).(now := s.now + 1), |s.insts|);
  }

  /** One instance lost a member. */
  ghost function Removed(s: State, k: Key, t: Inst): (after: State)
    requires k in s.ops && t < |s.insts|
  {
    Goto(SetSubs(s, t, s.insts[t].subs - {k.sub}), k, UnsubTest(t)).(now := s.now + 1)
  }

  lemma RemovedKeepsInsts(s: State, k: Key, t: Inst)
    requires Current(s, k.name, t) && At(s, k, UnsubRemove(t))
    ensures t < |s.insts| && At(Removed(s, k, t), k, UnsubTest(t))
  {
    assert InstOk(s, t);
    InstsStay(s, Removed(s, k, t), t);
  }

  lemma RemovedView(s: State, k: Key, t: Inst)
    requires Current(s, k.name, t) && At(s, k, UnsubRemove(t)) && t < |s.insts|
    ensures View(Removed(s, k, t)) == View(s)[k.name := View(s)[k.name] - {k.sub}]
  {
    var s' := Removed(s, k, t);
    assert s'.insts[t].subs.Keys == s.insts[t].subs.Keys - {k.sub};
    assert forall n :: n in s.topics && n != k.name ==> s.topics[n] != t;
  }

  lemma RemoveAt(s: State, k: Key, t: Inst)
    requires Current(s, k.name, t) && At(s, k, UnsubRemove(t))
    ensures var s' := Next(s, Advance(k));
            && s'.topics == s.topics && At(s', k, UnsubTest(t))
            && View(s') == View(s)[k.name := View(s)[k.name] - {k.sub}]
  {
    RemovedKeepsInsts(s, k, t);
    RemovedView(s, k, t);
    NextIs(s, k);
    assert Next(s, Advance(k)) == Removed(s, k, t);
  }

  lemma KeepAt(s: State, k: Key, t: Inst)
    requires Current(s, k.name, t) && At(s, k, UnsubTest(t)) && s.insts[t].subs != map[]
    ensures var s' := Next(s, Advance(k));
            s'.ops == map[] && InstsOk(s') && View(s') == View(s) && Off(s', k)
  {
    assert s.ops - {k} == map[];
    InstsStay(s, EndUnsubscribe(s, k).(now := s.now + 1), |s.insts|);
  }

  lemma TestAt(s: State, k: Key, t: Inst)
    requires Current(s, k.name, t) && At(s, k, UnsubTest(t)) && s.insts[t].subs == map[]
    ensures var s' := Next(s, Advance(k));
            s'.topics == s.topics && At(s', k, UnsubDelete(t, s.now)) && View(s') == View(s)
  {
    InstsStay(s, Goto(s, k, UnsubDelete(t, s.now)).(now := s.now + 1), |s.insts|);
  }

  lemma DeleteAt(s: State, k: Key, t: Inst, seenEmpty: nat)
    requires Current(s, k.name, t) && At(s, k, UnsubDelete(t, seenEmpty))
    ensures var s' := Next(s, Advance(k));
            s'.ops == map[] && InstsOk(s') && View(s') == View(s) - {k.name} && Off(s', k)
  {
    NextIs(s, k);
    var s' := Delete(s, k, t, seenEmpty).(now := s.now + 1);
    assert s.ops - {k} == map[];
    forall x | 0 <= x < |s'.insts| ensures InstOk(s', x) {
      assert InstOk(s, x);
    }
    DeletedView(s, s', k, t);
  }

  /** Deleting the current instance of a topic takes the topic, and nothing else, out of the view. */
  lemma DeletedView(s: State, s': State, k: Key, t: Inst)
    requires InstsOk(s) && Current(s, k.name, t) && s'.topics == s.topics - {k.name} && |s'.insts| == |s.insts|
    requires forall x :: 0 <= x < |s.insts| ==> s'.insts[x].subs == s.insts[x].subs
    ensures View(s') == View(s) - {k.name}
  {}

  /** An ended request's further steps do nothing. */
  lemma Idle(s: State, k: Key)
    requires s.ops == map[]
    ensures Next(s, Advance(k)) == s
  {}

  lemma UnsubLoadAt(s: State, k: Key)
    requires At(s, k, UnsubLoad) && k.name in s.topics
    ensures var s' := Next(s, Advance(k));
            s'.topics == s.topics && At(s', k, UnsubRemove(s.topics[k.name])) && View(s') == View(s)
  {
    NextIs(s, k);
    InstsStay(s, Goto(s, k, UnsubRemove(s.topics[k.name])).(now := s.now + 1), |s.insts|);
  }

  /** From the emptiness test on: a topic without members goes. */
  lemma TestedAlone(s: State, k: Key, t: Inst) returns (s1: State, s2: State)
    requires Current(s, k.name, t) && At(s, k, UnsubTest(t))
    ensures s1 == Next(s, Advance(k)) && s2 == Next(s1, Advance(k)) && s2.ops == map[] && InstsOk(s2) && Off(s2, k)
    ensures k.name in View(s)
    ensures View(s2) == if View(s)[k.name] == {} then View(s) - {k.name} else View(s)
  {
    assert View(s)[k.name] == s.insts[t].subs.Keys;
    s1 := Next(s, Advance(k));
    s2 := Next(s1, Advance(k));
    if s.insts[t].subs == map[] {
      TestAt(s, k, t);
      DeleteAt(s1, k, t, s.now);
    } else {
      assert View(s)[k.name] != {} by {
        var m :| m in s.insts[t].subs;
        assert m in View(s)[k.name];
      }
      KeepAt(s, k, t);
      Idle(s1, k);
    }
  }

  lemma UnsubscribedByParts(b: Spec.Bus, b1: Spec.Bus, n: Name, id: SubId)
    requires n in b && b1 == b[n := b[n] - {id}]
    ensures Spec.Unsubscribed(b, n, id) == if b1[n] == {} then b1 - {n} else b1
  {}

  /** A whole unsubscribe, whatever the map holds. */
  lemma UnsubscribeAlone(s: State, k: Key)
    requires Quiet(s)
    ensures var s' := Exec(s, Block(Unsubscribe(k)));
            Quiet(s') && View(s') == Spec.Unsubscribed(View(s), k.name, k.sub) && Off(s', k)
  {
    Spec.UnsubscribeChangesOne(View(s), k.name, k.sub);
    var _, s1 := StartStep(s, k);
    var s2 := Next(s1, Advance(k));
    if k.name in s1.topics {
      var t := s1.topics[k.name];
      UnsubLoadAt(s1, k);
      RemoveAt(s2, k, t);
      var s3 := Next(s2, Advance(k));
      var s4, s5 := TestedAlone(s3, k, t);
      UnsubscribedByParts(View(s), View(s3), k.name, k.sub);
      ExecFive(s, StartUnsubscribe(k), Advance(k), s1, s2, s3, s4, s5);
    } else {
      UnsubscribeAbsent(s1, k);
      Idle(s2, k);
      ExecFive(s, StartUnsubscribe(k), Advance(k), s1, s2, s2, s2, s2);
    }
  }

  // ---------------------------------------------------------------- whole runs

  lemma BlockIsEffect(s: State, q: Request)
    requires Quiet(s)
    ensures Quiet(Exec(s, Block(q))) && View(Exec(s, Block(q))) == Effect(View(s), q)
  {
    match q
    case Subscribe(k) => SubscribeAlone(s, k);
    case Unsubscribe(k) => UnsubscribeAlone(s, k);
  }

  lemma {:induction false} BlocksAreEffects(s: State, qs: seq<Request>)
    requires Quiet(s)
    ensures Quiet(Exec(s, Blocks(qs))) && View(Exec(s, Blocks(qs))) == Effects(View(s), qs)
    decreases |qs|
  {
    if qs == [] {
    } else {
      ExecAppend(s, Block(qs[0]), Blocks(qs[1..]));
      BlockIsEffect(s, qs[0]);
      BlocksAreEffects(Exec(s, Block(qs[0])), qs[1..]);
    }
  }

  /**
   Over every sequential run of subscribes and unsubscribes the interleaved bus is the map from
   topic to subscriber ids, and stores no empty topic.
   */
  lemma SequentialBusIsTheMap(qs: seq<Request>)
    ensures var s := Exec(INIT, Blocks(qs));
            View(s) == Effects(map[], qs) && Spec.NoEmptyTopic(View(s)) && s.ops == map[]
  {
    assert View(INIT) == map[];
    BlocksAreEffects(INIT, qs);
  }

  /** An unsubscribe of the only member, up to its delete. */
  lemma LastMemberAboutToDelete(s: State, k: Key) returns (s': State, t: Inst, seenEmpty: nat)
    requires Quiet(s) && k.name in View(s) && View(s)[k.name] == {k.sub}
    ensures Leads(s, s') && At(s', k, UnsubDelete(t, seenEmpty)) && Current(s', k.name, t)
  {
    var _, s1 := StartStep(s, k);
    LeadsByStep(s, StartUnsubscribe(k));
    t := s1.topics[k.name];
    UnsubLoadAt(s1, k);
    var s2 := Next(s1, Advance(k));
    LeadsByStep(s1, Advance(k));
    LeadsTrans(s, s1, s2);
    RemoveAt(s2, k, t);
    var s3 := Next(s2, Advance(k));
    LeadsByStep(s2, Advance(k));
    LeadsTrans(s, s2, s3);
    assert View(s3)[k.name] == s3.insts[t].subs.Keys == {};
    seenEmpty := s3.now;
    TestAt(s3, k, t);
    s' := Next(s3, Advance(k));
    LeadsByStep(s3, Advance(k));
    LeadsTrans(s, s3, s');
  }

  predicate OfKey(step: Step) {
    step.StartSubscribe? || step.StartUnsubscribe? || step.Advance?
  }

  lemma KeyStepKeepsPublishes(s: State, step: Step)
    requires OfKey(step)
    ensures Next(s, step).pubs == s.pubs && Next(s, step).snaps == s.snaps
  {
    if Enabled(s, step) && step.Advance? {
      NextIs(s, step.k);
    }
  }

  lemma {:induction false} KeyStepsKeepPublishes(s: State, steps: seq<Step>)
    requires forall i :: 0 <= i < |steps| ==> OfKey(steps[i])
    ensures Exec(s, steps).pubs == s.pubs && Exec(s, steps).snaps == s.snaps
    decreases |steps|
  {
    if steps == [] {
    } else {
      KeyStepKeepsPublishes(s, steps[0]);
      KeyStepsKeepPublishes(Next(s, steps[0]), steps[1..]);
    }
  }

  /** A whole request, and what it leaves alone. */
  lemma Served(s: State, q: Request) returns (s': State)
    requires Quiet(s)
    ensures Leads(s, s') && Quiet(s') && View(s') == Effect(View(s), q)
    ensures s'.pubs == s.pubs && s'.snaps == s.snaps && (q.Unsubscribe? ==> Off(s', q.k))
  {
    s' := Exec(s, Block(q));
    BlockIsEffect(s, q);
    BlockOfKey(q);
    KeyStepsKeepPublishes(s, Block(q));
    if q.Unsubscribe? {
      UnsubscribeAlone(s, q.k);
    }
  }

  lemma BlockOfKey(q: Request)
    ensures forall i :: 0 <= i < |Block(q)| ==> OfKey(Block(q)[i])
  {}

  /** A publish that has loaded its topic and not taken its snapshot. */
  lemma PublishLoaded(s: State, p: PubId, n: Name) returns (s': State)
    requires p !in s.pubs && p !in s.snaps && n in s.topics
    ensures Leads(s, s') && p in s'.pubs && s'.pubs[p] == PubSnap(s.topics[n], s.now)
    ensures s'.topics == s.topics && s'.insts == s.insts && s'.ops == s.ops && s'.offSince == s.offSince
  {
    var s1 := Next(s, StartPublish(p, n));
    LeadsByStep(s, StartPublish(p, n));
    s' := Next(s1, AdvancePublish(p));
    LeadsByStep(s1, AdvancePublish(p));
    LeadsTrans(s, s1, s');
  }

  /** k and other subscribe, and k unsubscribes again. */
  lemma OneLeftOver(k: Key, other: Key) returns (s: State)
    requires k.name == other.name && k != other
    ensures Leads(INIT, s) && Quiet(s) && Off(s, k) && k.name in s.topics && s.pubs == map[] && s.snaps == map[]
  {
    assert View(INIT) == map[];
    var s1 := Served(INIT, Subscribe(k));
    var s2 := Served(s1, Subscribe(other));
    s := Served(s2, Unsubscribe(k));
    LeadsTrans(INIT, s1, s2);
    LeadsTrans(INIT, s2, s);
    assert other.sub in View(s2)[k.name] - {k.sub};
    assert k.name in View(s);
  }

  /** A reachable state in which a publish delivered to a subscriber that was off when it started. */
  lemma DeliveredAfterUnsubscribeFromScratch(k: Key, other: Key, p: PubId) returns (s: State, started: State)
    requires k.name == other.name && k != other
    ensures Leads(INIT, started) && Leads(started, s)
    ensures Off(started, k) && k !in started.ops && p !in started.pubs && p !in started.snaps
    ensures (p, k.sub) in s.delivered
  {
    started := OneLeftOver(k, other);
    var s1 := PublishLoaded(started, p, k.name);
    assert started.topics[k.name] < |started.insts|;
    s := ResubscribedBeforeSnapshotIsDelivered(s1, p, k);
    LeadsTrans(started, s1, s);
  }

  /** A reachable state in which a subscription whose Subscribe returned is on no topic of the map. */
  lemma SubscriptionLostFromScratch(leaver: Key, k: Key) returns (s: State)
    requires leaver.name == k.name && leaver != k
    ensures Leads(INIT, s) && k in s.active && k !in s.ops && k.name !in s.topics
  {
    assert View(INIT) == map[];
    var s1 := Served(INIT, Subscribe(leaver));
    var s2, t, seenEmpty := LastMemberAboutToDelete(s1, leaver);
    LeadsTrans(INIT, s1, s2);
    s := SubscribeInTheGapIsLost(s2, leaver, k, t, seenEmpty);
    LeadsTrans(INIT, s2, s);
  }
}
