/**
 Who a publish reaches while others come and go, and that no call on the bus can be stuck.
 */
module BusDelivery {
  import opened BusProtocol

  // ---------------------------------------------------------------- a subscriber that stays

  /** k's subscription stands, at home in the instance the map holds. */
  ghost predicate Stands(s: State, k: Key, home: Home) {
    k in s.active && s.active[k] == home && Current(s, k.name, home.t)
  }

  ghost predicate StandsThroughout(s: State, steps: seq<Step>, k: Key, home: Home)
    decreases |steps|
  {
    Stands(s, k, home) && (steps != [] ==> StandsThroughout(Next(s, steps[0]), steps[1..], k, home))
  }

  /** Publish p has not yet looked for its members, or is about to look at k's home, or saw k there. */
  ghost predicate Finds(s: State, p: PubId, k: Key, home: Home) {
    if p in s.snaps then k.sub in s.snaps[p].members
    else
      p in s.pubs && match s.pubs[p]
                     case PubLoad(n, _) => n == k.name
                     case PubSnap(t, _) => t == home.t
                     case PubSend(_) => false
  }

  lemma PublishFinds(s: State, p: PubId, k: Key, home: Home)
    requires Inv(s) && Stands(s, k, home) && Finds(s, p, k, home) && Enabled(s, AdvancePublish(p))
    ensures Finds(Next(s, AdvancePublish(p)), p, k, home)
  {
    assert PubOk(s, p) && ActiveOk(s, k);
  }

  lemma StepFinds(s: State, step: Step, p: PubId, k: Key, home: Home)
    requires Inv(s) && Stands(s, k, home) && Finds(s, p, k, home)
    ensures Finds(Next(s, step), p, k, home)
  {
    if Enabled(s, step) {
      match step
      case AdvancePublish(q) =>
        if q == p {
          PublishFinds(s, p, k, home);
        } else {
          OthersPublish(s, q, p);
        }
      case Advance(x) =>
      case _ =>
    }
  }

  /** Publish p stands where it stood. */
  ghost predicate SamePublish(s: State, s': State, p: PubId) {
    && (p in s'.pubs <==> p in s.pubs) && (p in s.pubs ==> s'.pubs[p] == s.pubs[p])
    && (p in s'.snaps <==> p in s.snaps) && (p in s.snaps ==> s'.snaps[p] == s.snaps[p])
  }

  lemma OthersSnap(s: State, q: PubId, p: PubId)
    requires Enabled(s, AdvancePublish(q)) && s.pubs[q].PubSnap? && p != q
    ensures SamePublish(s, AdvancePub(s, q), p)
  {}

  lemma OthersPublish(s: State, q: PubId, p: PubId)
    requires Enabled(s, AdvancePublish(q)) && p != q
    ensures SamePublish(s, AdvancePub(s, q), p)
  {
    if s.pubs[q].PubSnap? {
      OthersSnap(s, q, p);
    }
  }

  lemma {:induction false} RunFinds(s: State, steps: seq<Step>, p: PubId, k: Key, home: Home)
    requires Inv(s) && StandsThroughout(s, steps, k, home) && Finds(s, p, k, home)
    ensures Finds(Exec(s, steps), p, k, home)
    decreases |steps|
  {
    if steps == [] {
    } else {
      StepKeepsInv(s, steps[0]);
      StepFinds(s, steps[0], p, k, home);
      RunFinds(Next(s, steps[0]), steps[1..], p, k, home);
    }
  }

  lemma FoundIsDelivered(s: State, steps: seq<Step>, p: PubId, k: Key, home: Home)
    requires Inv(s) && StandsThroughout(s, steps, k, home) && Finds(s, p, k, home) && p !in Exec(s, steps).pubs
    ensures Exec(s, steps).delivered[(p, k.sub)] == 1
  {
    RunFinds(s, steps, p, k, home);
    RunsKeepInv(s, steps);
    assert DeliveredTo(Exec(s, steps), p, k.sub);
  }

  lemma StartFinds(s: State, p: PubId, k: Key, home: Home)
    requires Enabled(s, StartPublish(p, k.name))
    ensures Finds(Next(s, StartPublish(p, k.name)), p, k, home)
  {}

  /**
   Delivery to those who stay, in every interleaving: a subscription that is not lost and that stands
   from the start of a publish on its topic to its end gets the event, exactly once.
   */
  lemma StandingSubscriberIsDelivered(before: seq<Step>, s: State, p: PubId, k: Key, steps: seq<Step>)
    requires s == Exec(INIT, before) && k in s.active && Enabled(s, StartPublish(p, k.name))
    requires StandsThroughout(Next(s, StartPublish(p, k.name)), steps, k, s.active[k])
    requires p !in Exec(Next(s, StartPublish(p, k.name)), steps).pubs
    ensures Exec(Next(s, StartPublish(p, k.name)), steps).delivered[(p, k.sub)] == 1
  {
    RunsKeepInv(INIT, before);
    StepKeepsInv(s, StartPublish(p, k.name));
    StartFinds(s, p, k, s.active[k]);
    FoundIsDelivered(Next(s, StartPublish(p, k.name)), steps, p, k, s.active[k]);
  }

  // ---------------------------------------------------------------- no call is stuck

  lemma LeadsOn(s: State, step: Step, s': State)
    requires Leads(Next(s, step), s')
    ensures Leads(s, s')
  {
    LeadsByStep(s, step);
    LeadsTrans(s, Next(s, step), s');
  }

  lemma LeadsNowhere(s: State)
    ensures Leads(s, s)
  {
    assert Exec(s, []) == s;
  }

  /** How many steps a call has left when nothing interleaves with it. */
  function StepsLeft(s: State, k: Key): (n: nat)
    requires k in s.ops
  {
    var pc := s.ops[k].pc;
    match pc
    case SubLoad => 3
    case SubAdd(t) => if Current(s, k.name, t) then 2 else 6
    case SubCheck(t, _) => if Current(s, k.name, t) then 1 else 5
    case SubUndo(_) => 4
    case UnsubLoad => 4
    case UnsubRemove(_) => 3
    case UnsubTest(_) => 2
    case UnsubDelete(_, _) => 1
  }

  lemma LoadAdvances(s: State, k: Key)
    requires k in s.ops && s.ops[k].pc.SubLoad?
    ensures var s' := LoadOrStore(s, k); k in s'.ops && s'.ops[k].pc.SubAdd? && Current(s', k.name, s'.ops[k].pc.t)
  {}

  lemma AddAdvances(s: State, k: Key, t: Inst)
    requires k in s.ops && t < |s.insts|
    ensures var s' := Add(s, k, t); k in s'.ops && s'.ops[k].pc == SubCheck(t, s.now) && s'.topics == s.topics
  {}

  lemma UndoAdvances(s: State, k: Key, t: Inst)
    requires k in s.ops && t < |s.insts|
    ensures var s' := Undo(s, k, t); k in s'.ops && s'.ops[k].pc == SubLoad
  {}

  lemma CheckAdvances(s: State, k: Key, t: Inst, addedAt: nat)
    requires k in s.ops
    ensures var s' := Check(s, k, t, addedAt);
            if Current(s, k.name, t) then k !in s'.ops && k in s'.active else k in s'.ops && s'.ops[k].pc == SubUndo(t)
  {}

  /** What the next step of a subscribe makes of it. */
  lemma SubscribeAdvances(s: State, k: Key)
    requires Enabled(s, Advance(k)) && Subscribing(s.ops[k].pc)
    ensures var s' := AdvanceOp(s, k);
            if k in s'.ops then Subscribing(s'.ops[k].pc) && StepsLeft(s', k) < StepsLeft(s, k) else k in s'.active
  {
    match s.ops[k].pc
    case SubLoad => LoadAdvances(s, k);
    case SubAdd(t) => AddAdvances(s, k, t);
    case SubCheck(t, addedAt) => CheckAdvances(s, k, t, addedAt);
    case SubUndo(t) => UndoAdvances(s, k, t);
  }

  lemma UnloadAdvances(s: State, k: Key)
    requires Enabled(s, Advance(k)) && s.ops[k].pc.UnsubLoad?
    ensures var s' := AdvanceOp(s, k); if k in s'.ops then s'.ops[k].pc.UnsubRemove? else k in s'.offSince
  {}

  lemma RemoveAdvances(s: State, k: Key)
    requires Enabled(s, Advance(k)) && s.ops[k].pc.UnsubRemove?
    ensures var s' := AdvanceOp(s, k); k in s'.ops && s'.ops[k].pc.UnsubTest?
  {}

  lemma TestAdvances(s: State, k: Key)
    requires Enabled(s, Advance(k)) && s.ops[k].pc.UnsubTest?
    ensures var s' := AdvanceOp(s, k); if k in s'.ops then s'.ops[k].pc.UnsubDelete? else k in s'.offSince
  {}

  lemma DeleteAdvances(s: State, k: Key)
    requires Enabled(s, Advance(k)) && s.ops[k].pc.UnsubDelete?
    ensures var s' := AdvanceOp(s, k); k !in s'.ops && k in s'.offSince
  {}

  /** And of an unsubscribe. */
  lemma UnsubscribeAdvances(s: State, k: Key)
    requires Enabled(s, Advance(k)) && !Subscribing(s.ops[k].pc)
    ensures var s' := AdvanceOp(s, k);
            if k in s'.ops then !Subscribing(s'.ops[k].pc) && StepsLeft(s', k) < StepsLeft(s, k) else k in s'.offSince
  {
    match s.ops[k].pc
    case UnsubLoad => UnloadAdvances(s, k);
    case UnsubRemove(_) => RemoveAdvances(s, k);
    case UnsubTest(_) => TestAdvances(s, k);
    case UnsubDelete(_, _) => DeleteAdvances(s, k);
  }

  lemma CallAdvances(s: State, k: Key)
    requires Inv(s) && k in s.ops
    ensures var s' := Next(s, Advance(k));
            if k in s'.ops
            then Subscribing(s'.ops[k].pc) == Subscribing(s.ops[k].pc) && StepsLeft(s', k) < StepsLeft(s, k)
            else if Subscribing(s.ops[k].pc) then k in s'.active else k in s'.offSince
  {
    AdvanceKeepsInv(s, k);
    SameMeasure(s, k);
    if Subscribing(s.ops[k].pc) {
      SubscribeAdvances(s, k);
    } else {
      UnsubscribeAdvances(s, k);
    }
  }

  /** The clock takes no part in it. */
  lemma SameMeasure(s: State, k: Key)
    requires Enabled(s, Advance(k))
    ensures var s1 := AdvanceOp(s, k);
            var s' := Next(s, Advance(k));
            s'.ops == s1.ops && s'.active == s1.active && s'.offSince == s1.offSince
            && (k in s'.ops ==> StepsLeft(s', k) == StepsLeft(s1, k))
  {}

  lemma {:induction false} CallEnds(s: State, k: Key) returns (s': State)
    requires Inv(s) && k in s.ops
    ensures Leads(s, s') && k !in s'.ops
    ensures if Subscribing(s.ops[k].pc) then k in s'.active else k in s'.offSince
    decreases StepsLeft(s, k)
  {
    CallAdvances(s, k);
    StepKeepsInv(s, Advance(k));
    s' := Next(s, Advance(k));
    if k in s'.ops {
      s' := CallEnds(s', k);
    } else {
      LeadsNowhere(s');
    }
    LeadsOn(s, Advance(k), s');
  }

  /**
   From every reachable state, a subscribe or unsubscribe under way can return by its own steps: the
   one with its subscription standing, the other with none.
   */
  lemma EveryCallReturns(steps: seq<Step>, k: Key) returns (s': State)
    requires k in Exec(INIT, steps).ops
    ensures Leads(Exec(INIT, steps), s') && k !in s'.ops
    ensures if Subscribing(Exec(INIT, steps).ops[k].pc) then k in s'.active else k in s'.offSince
  {
    RunsKeepInv(INIT, steps);
    s' := CallEnds(Exec(INIT, steps), k);
  }

  lemma {:induction false} DeliveriesEnd(s: State, p: PubId) returns (s': State)
    requires p in s.pubs && s.pubs[p].PubSend?
    ensures Leads(s, s') && p !in s'.pubs && s'.snaps == s.snaps
    decreases |s.pubs[p].todo|
  {
    if s.pubs[p].todo == {} {
      s' := Next(s, AdvancePublish(p));
      LeadsByStep(s, AdvancePublish(p));
    } else {
      var m :| m in s.pubs[p].todo;
      s' := DeliveriesEnd(Next(s, Deliver(p, m)), p);
      LeadsOn(s, Deliver(p, m), s');
    }
  }

  lemma SnapshotEnds(s: State, p: PubId) returns (s': State)
    requires p in s.pubs && s.pubs[p].PubSnap? && s.pubs[p].t < |s.insts|
    ensures Leads(s, s') && p !in s'.pubs && p in s'.snaps
  {
    s' := DeliveriesEnd(Next(s, AdvancePublish(p)), p);
    LeadsOn(s, AdvancePublish(p), s');
  }

  lemma LoadEnds(s: State, p: PubId, n: Name, started: nat) returns (s': State)
    requires Inv(s) && p in s.pubs && s.pubs[p] == PubLoad(n, started)
    ensures Leads(s, s') && p !in s'.pubs && (p in s'.snaps || n !in s.topics)
  {
    s' := Next(s, AdvancePublish(p));
    if n in s.topics {
      s' := SnapshotEnds(s', p);
      LeadsOn(s, AdvancePublish(p), s');
    } else {
      LeadsByStep(s, AdvancePublish(p));
    }
  }

  /**
   From every reachable state, a publish under way can return by its own steps, with all its deliveries
   made: it saw a snapshot unless it found no topic.
   */
  lemma EveryPublishReturns(steps: seq<Step>, s: State, p: PubId) returns (s': State)
    requires s == Exec(INIT, steps) && p in s.pubs
    ensures Leads(s, s') && p !in s'.pubs
    ensures p in s'.snaps || (s.pubs[p].PubLoad? && s.pubs[p].name !in s.topics)
  {
    RunsKeepInv(INIT, steps);
    assert PubOk(s, p);
    match s.pubs[p]
    case PubLoad(n, started) => s' := LoadEnds(s, p, n, started);
    case PubSnap(_, _) => s' := SnapshotEnds(s, p);
    case PubSend(_) => s' := DeliveriesEnd(s, p);
  }
}
