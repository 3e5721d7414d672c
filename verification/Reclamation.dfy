/** When the linked queue deletes nodes, and how far its heads really get apart. */
module Reclamation {
  import opened LinkedQueue

  /** A head leaves the deleting loop with exactly the nodes before its own deleted. */
  lemma LoopDeletesAll(c: Config, steps: seq<Step>, s: State, h: nat)
    requires Run(c, steps, s) && h < 2 && |s.heads| == 2
    requires s.heads[h].at.CheckFree? && s.freeHead == s.heads[h].node
    ensures forall k: nat :: k in s.freed <==> k < s.heads[h].node
  {
    RunInv(c, steps, s);
    OneDeletes(s);
    assert h == 0 || h == 1;
    hide ListOk, HeadOk, LeadOk, FreeOk, FlagOk;
  }

  // ---- building executions ----

  lemma Taken(c: Config, steps: seq<Step>, s: State, step: Step) returns (steps': seq<Step>, s': State)
    requires Run(c, steps, s) && Enabled(c, s, step)
    ensures Run(c, steps', s') && Next(c, s, step, s')
  {
    RunInv(c, steps, s);
    InvIsSafe(c, s, step);
    s' := match step case Produce => ProduceStep(c, s) case Pop(h) => PopStep(c, s, h);
    steps' := steps + [step];
    var states :| Passes(c, steps, states) && states[|steps|] == s;
    var longer := states + [s'];
    assert Next(c, s, step, s');
    hide Next, Inv, Initial;
    forall i | 0 <= i < |steps'| ensures Next(c, longer[i], steps'[i], longer[i + 1]) {
      if i < |steps| {
        assert Next(c, states[i], steps[i], states[i + 1]);
      }
    }
    assert Passes(c, steps', longer);
  }

  /** What the steps of one head leave alone. */
  predicate SameRest(s: State, s': State) {
    s'.producer == s.producer && s'.submitted == s.submitted && s'.freed == s.freed && s'.freeHead == s.freeHead
  }

  predicate TwoHeads(s: State) {
    |s.heads| == 2
  }

  /** One more message is pushed and both heads are notified. */
  lemma Submit(c: Config, steps: seq<Step>, s: State) returns (steps': seq<Step>, s': State)
    requires Run(c, steps, s) && TwoHeads(s) && s.producer.Ready? && s.submitted < |c.stream|
    ensures Run(c, steps', s') && s'.producer.Ready? && s'.submitted == s.submitted + 1
    ensures s'.freed == s.freed && s'.freeHead == s.freeHead
    ensures s'.heads == [s.heads[0].(items := s.heads[0].items + 1), s.heads[1].(items := s.heads[1].items + 1)]
  {
    hide Run;
    steps', s' := Taken(c, steps, s, Produce);
    steps', s' := Taken(c, steps', s', Produce);
    steps', s' := Taken(c, steps', s', Produce);
    steps', s' := Taken(c, steps', s', Produce);
    steps', s' := Taken(c, steps', s', Produce);
  }

  /** A head that is let through takes the next node and comes to its flag. */
  lemma TakeNode(c: Config, steps: seq<Step>, s: State, h: nat) returns (steps': seq<Step>, s': State)
    requires Run(c, steps, s) && TwoHeads(s) && h < 2
    requires s.heads[h].at.Idle? && s.heads[h].items > 0 && s.heads[h].lead > 0
    ensures Run(c, steps', s') && SameRest(s, s') && TwoHeads(s')
    ensures s'.heads[1 - h] == s.heads[1 - h]
    ensures s'.heads[h] == s.heads[h].(at := LoadFlag, node := s.heads[h].node + 1, items := s.heads[h].items - 1,
                                       lead := s.heads[h].lead - 1, taken := s'.heads[h].taken)
  {
    hide Run, Inv;
    RunInv(c, steps, s);
    steps', s' := Taken(c, steps, s, Pop(h));
    steps', s' := Taken(c, steps', s', Pop(h));
    steps', s' := Taken(c, steps', s', Pop(h));
    RunInv(c, steps', s');
    assert s'.heads[h].at.to == s.heads[h].node + 1 by { InvTells(c, s', h); }
    steps', s' := Taken(c, steps', s', Pop(h));
    steps', s' := Taken(c, steps', s', Pop(h));
  }

  lemma InvTells(c: Config, s: State, h: nat)
    requires Inv(c, s) && h < 2
    ensures ListOk(c, s) && HeadOk(c, s, h) && LeadOk(c, s, h) && FreeOk(s, h) && FlagOk(s, h)
  {
    assert h == 0 || h == 1;
  }

  /** At a flag that the other head has not come past, the head goes on to store it. */
  lemma LoadFlagFirst(c: Config, steps: seq<Step>, s: State, h: nat) returns (steps': seq<Step>, s': State)
    requires Run(c, steps, s) && TwoHeads(s) && h < 2
    requires s.heads[h].at.LoadFlag? && !Done(s.heads[1 - h], s.heads[h].node)
    ensures Run(c, steps', s') && SameRest(s, s') && TwoHeads(s')
    ensures s'.heads[1 - h] == s.heads[1 - h] && s'.heads[h] == s.heads[h].(at := StoreFlag)
  {
    hide Run, Inv;
    LaterHeadDeletes(c, steps, s, h);
    steps', s' := Taken(c, steps, s, Pop(h));
  }

  /** Storing the flag ends the pop; the other head may come one closer. */
  lemma StoreAndPost(c: Config, steps: seq<Step>, s: State, h: nat) returns (steps': seq<Step>, s': State)
    requires Run(c, steps, s) && TwoHeads(s) && h < 2 && s.heads[h].at.StoreFlag?
    ensures Run(c, steps', s') && SameRest(s, s') && TwoHeads(s')
    ensures s'.heads[h] == s.heads[h].(at := Idle)
    ensures s'.heads[1 - h] == s.heads[1 - h].(lead := s.heads[1 - h].lead + 1)
  {
    hide Run, Inv;
    steps', s' := Taken(c, steps, s, Pop(h));
    steps', s' := Taken(c, steps', s', Pop(h));
  }

  // ---- how far a head gets in front ----

  /** `k` messages were submitted; head `h` has taken all of them and the other head none. */
  ghost predicate InFront(c: Config, s: State, h: nat, k: nat)
    requires h < 2
  {
    && TwoHeads(s) && s.producer.Ready? && s.submitted == k && k <= LeadOf(c, h)
    && s.heads[h].at.Idle? && s.heads[h].node == k && s.heads[h].items == 0 && s.heads[h].lead == LeadOf(c, h) - k
    && s.heads[1 - h].at.Idle? && s.heads[1 - h].node == 0 && s.heads[1 - h].items == k
    && s.heads[1 - h].lead == LeadOf(c, 1 - h) + k
  }

  lemma {:induction false} GoesInFront(c: Config, h: nat, k: nat) returns (steps: seq<Step>, s: State)
    requires h < 2 && k <= LeadOf(c, h) && k <= |c.stream|
    ensures Run(c, steps, s) && InFront(c, s, h, k)
  {
    if k == 0 {
      steps, s := [], Initial(c);
      assert Passes(c, [], [Initial(c)]);
    } else {
      steps, s := GoesInFront(c, h, k - 1);
      hide Run;
      steps, s := Submit(c, steps, s);
      steps, s := TakeNode(c, steps, s, h);
      steps, s := LoadFlagFirst(c, steps, s, h);
      steps, s := StoreAndPost(c, steps, s, h);
    }
  }

  function Min(a: nat, b: nat): nat {
    if a <= b then a else b
  }

  ghost predicate WithinLead(s: State, h: nat, lead: nat)
    requires h < 2
  {
    TwoHeads(s) && s.heads[h].node - s.heads[1 - h].node <= lead
  }

  /** The lead that is meant for a head, the one `Queue` gives it, bounds it in every execution if and only
      if the lead of the other head, or the stream, is no longer. */
  lemma IntendedLeadHolds(c: Config, h: nat)
    requires h < 2
    ensures (forall steps, s :: Run(c, steps, s) ==> WithinLead(s, h, LeadOf(c, 1 - h)))
            <==> Min(LeadOf(c, h), |c.stream|) <= LeadOf(c, 1 - h)
  {
    if Min(LeadOf(c, h), |c.stream|) <= LeadOf(c, 1 - h) {
      forall steps, s | Run(c, steps, s) ensures WithinLead(s, h, LeadOf(c, 1 - h)) {
        LeadsAreSwapped(c, steps, s);
        HeadsDeliverTheStream(c, steps, s, h);
        assert h == 0 || h == 1;
      }
    } else {
      var steps, s := GoesInFront(c, h, Min(LeadOf(c, h), |c.stream|));
      assert !WithinLead(s, h, LeadOf(c, 1 - h));
    }
  }

  /** The bound of the swapped lead is attained. */
  lemma SwappedLeadIsAttained(c: Config, h: nat) returns (steps: seq<Step>, s: State)
    requires h < 2 && LeadOf(c, h) <= |c.stream|
    ensures Run(c, steps, s) && TwoHeads(s) && s.heads[h].node - s.heads[1 - h].node == LeadOf(c, h)
  {
    steps, s := GoesInFront(c, h, LeadOf(c, h));
  }

  // ---- when nodes are left behind ----

  /** Both heads have loaded the flag of the same node and neither has stored it. */
  predicate BothLoaded(s: State) {
    TwoHeads(s) && s.heads[0].at.StoreFlag? && s.heads[1].at.StoreFlag? && s.heads[0].node == s.heads[1].node
  }

  /** Both heads are done with the same node, and one before it has not been deleted. */
  ghost predicate LeftBehind(s: State) {
    && TwoHeads(s) && s.heads[0].at.Idle? && s.heads[1].at.Idle? && s.heads[0].node == s.heads[1].node
    && exists k: nat :: k < s.heads[0].node && k !in s.freed
  }

  predicate BothLead(c: Config) {
    c.stream != [] && c.ahead0 >= 1 && c.ahead1 >= 1
  }

  lemma BothLoad(c: Config) returns (steps: seq<Step>, s: State)
    requires BothLead(c)
    ensures Run(c, steps, s) && BothLoaded(s) && s.heads[0].node == 1 && s.freed == {} && s.freeHead == 0
  {
    steps, s := [], Initial(c);
    assert Passes(c, [], [Initial(c)]);
    hide Run;
    steps, s := Submit(c, steps, s);
    steps, s := TakeNode(c, steps, s, 0);
    steps, s := LoadFlagFirst(c, steps, s, 0);
    steps, s := TakeNode(c, steps, s, 1);
    steps, s := LoadFlagFirst(c, steps, s, 1);
  }

  lemma LoadingNeedsLead(c: Config, steps: seq<Step>, s: State)
    requires Run(c, steps, s) && BothLoaded(s)
    ensures BothLead(c)
  {
    RunInv(c, steps, s);
    hide ListOk, FreeOk, FreedOk, FlagOk;
  }

  /** Both heads can load the flag of a node before either stores it if and only if each has a lead. */
  lemma BothMayLoad(c: Config)
    ensures (exists steps, s :: Run(c, steps, s) && BothLoaded(s)) <==> BothLead(c)
  {
    if BothLead(c) {
      var steps, s := BothLoad(c);
    }
    forall steps, s | Run(c, steps, s) && BothLoaded(s) ensures BothLead(c) {
      LoadingNeedsLead(c, steps, s);
    }
  }

  /** A head without a lead always comes second, so it always deletes, and the other head never does. */
  ghost predicate Second(s: State, h: nat)
    requires h < 2
  {
    && TwoHeads(s) && !s.heads[h].at.StoreFlag? && !Freeing(s.heads[1 - h].at)
    && (s.heads[h].at.LoadFlag? || Freeing(s.heads[h].at) || s.freeHead == s.heads[h].node)
  }

  /** A head without a lead follows the other one, which is past the node before it gives its lead away. */
  lemma Follows(c: Config, s: State, h: nat)
    requires h < 2 && TwoHeads(s) && LeadOf(c, h) == 0 && LeadOk(c, s, h)
    ensures AfterMove(s.heads[1 - h].at) ==> !Done(s.heads[h], s.heads[1 - h].node)
    ensures AfterMove(s.heads[h].at) ==> Done(s.heads[1 - h], s.heads[h].node)
  {
  }

  /** What a step of head `g` does to where it stands and to the first node of the list. */
  lemma PopShape(c: Config, s: State, g: nat)
    requires g < 2 && TwoHeads(s) && Enabled(c, s, Pop(g)) && Safe(c, s, Pop(g))
    ensures var s' := PopStep(c, s, g);
            var (at, at') := (s.heads[g].at, Own(c, s, g).at);
            && TwoHeads(s') && s'.heads[g] == Own(c, s, g)
            && s'.heads[1 - g].at == s.heads[1 - g].at && s'.heads[1 - g].node == s.heads[1 - g].node
            && (at'.StoreFlag? ==> at.LoadFlag?)
            && (Freeing(at') ==> Freeing(at) || (at.LoadFlag? && at'.CheckFree?))
            && (!Freeing(at) ==> s'.freeHead == s.freeHead)
            && (Freeing(at) && !Freeing(at') ==> s'.freeHead == s'.heads[g].node)
            && (at'.LoadFlag? || s'.heads[g].node == s.heads[g].node)
  {
  }

  lemma SecondOwn(c: Config, s: State, h: nat)
    requires h < 2 && LeadOf(c, h) == 0 && Inv(c, s) && Second(s, h) && Enabled(c, s, Pop(h)) && Safe(c, s, Pop(h))
    ensures Second(PopStep(c, s, h), h)
  {
    InvTells(c, s, h);
    InvTells(c, s, 1 - h);
    Follows(c, s, h);
    PopShape(c, s, h);
    hide Inv, ListOk, HeadOk, LeadOk, FreeOk, FreedOk, FlagOk, Done, Safe, Enabled, PopStep, Own;
    if s.heads[h].at.LoadFlag? {
      LoadTellsWhoIsLater(c, s, h);
    }
  }

  lemma SecondOther(c: Config, s: State, h: nat)
    requires h < 2 && LeadOf(c, h) == 0 && Inv(c, s) && Second(s, h)
    requires Enabled(c, s, Pop(1 - h)) && Safe(c, s, Pop(1 - h))
    ensures Second(PopStep(c, s, 1 - h), h)
  {
    InvTells(c, s, h);
    InvTells(c, s, 1 - h);
    Follows(c, s, h);
    PopShape(c, s, 1 - h);
    hide Inv, ListOk, HeadOk, LeadOk, FreeOk, FreedOk, FlagOk, Done, Safe, Enabled, PopStep, Own;
    if s.heads[1 - h].at.LoadFlag? {
      LoadTellsWhoIsLater(c, s, 1 - h);
    }
  }

  lemma SecondProduce(c: Config, s: State, h: nat)
    requires h < 2 && Second(s, h) && Safe(c, s, Produce)
    ensures Second(ProduceStep(c, s), h)
  {
  }

  lemma SecondKept(c: Config, s: State, step: Step, s': State, h: nat)
    requires h < 2 && LeadOf(c, h) == 0 && Inv(c, s) && Second(s, h) && Next(c, s, step, s')
    ensures Second(s', h)
  {
    hide Inv, Second, Safe, PopStep, ProduceStep;
    match step
    case Produce => SecondProduce(c, s, h);
    case Pop(g) =>
      if g == h {
        SecondOwn(c, s, h);
      } else {
        SecondOther(c, s, h);
      }
  }

  lemma {:induction false} AlwaysSecond(c: Config, steps: seq<Step>, s: State, h: nat)
    requires h < 2 && LeadOf(c, h) == 0 && Run(c, steps, s)
    ensures Second(s, h)
  {
    if steps == [] {
    } else {
      var before := LastStep(c, steps, s);
      AlwaysSecond(c, steps[..|steps| - 1], before, h);
      RunInv(c, steps[..|steps| - 1], before);
      SecondKept(c, before, steps[|steps| - 1], s, h);
    }
  }

  /** Whenever a head without a lead is between two pops, exactly the nodes before its own are deleted. */
  lemma NothingLeftWithoutLead(c: Config, steps: seq<Step>, s: State, h: nat)
    requires h < 2 && LeadOf(c, h) == 0 && Run(c, steps, s) && TwoHeads(s) && s.heads[h].at.Idle?
    ensures forall k: nat :: k in s.freed <==> k < s.heads[h].node
  {
    AlwaysSecond(c, steps, s, h);
    RunInv(c, steps, s);
    assert h == 0 || h == 1;
    hide ListOk, HeadOk, LeadOk, FlagOk, FreeOk;
  }

  /** Nodes that both heads have passed may be left behind if and only if each head has a lead. */
  lemma NodesMayStay(c: Config)
    ensures (exists steps, s :: Run(c, steps, s) && LeftBehind(s)) <==> BothLead(c)
  {
    if BothLead(c) {
      var steps, s := BothLoad(c);
      steps, s := StoreAndPost(c, steps, s, 0);
      steps, s := StoreAndPost(c, steps, s, 1);
      assert 0 !in s.freed && LeftBehind(s);
    }
    forall steps, s | Run(c, steps, s) && LeftBehind(s) ensures BothLead(c) {
      StayingNeedsLead(c, steps, s);
    }
  }

  lemma StayingNeedsLead(c: Config, steps: seq<Step>, s: State)
    requires Run(c, steps, s) && LeftBehind(s)
    ensures BothLead(c)
  {
    HeadsDeliverTheStream(c, steps, s, 0);
    if LeadOf(c, 0) == 0 {
      NothingLeftWithoutLead(c, steps, s, 0);
      assert false;
    }
    if LeadOf(c, 1) == 0 {
      NothingLeftWithoutLead(c, steps, s, 1);
      assert false;
    }
  }
}
