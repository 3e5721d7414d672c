/** The linked variant of the two-headed queue, which deletes nodes once both heads have passed them.
    Every load, store and pointer access of `push` and `pop` is a step of its own. */
module LinkedQueue {
  import opened Counting
  import opened Requests

  /** A node is known by the order of its allocation; node 0 is the sentinel and carries no value. */
  datatype Node = Node(value: Option<Request>, next: Option<nat>, passed: bool)

  datatype ProducerAt = Ready | Allocated | Linked | Pushed | NotifiedFirst

  datatype HeadAt =
    | Idle                                   // next: wait for an item
    | HasItem                                // next: wait for the lead
    | ReadNext                               // head = heads[H]->next
    | ReadValue(to: nat)                     // curr_value = head->value
    | Move(to: nat, value: Request)          // heads[H] = head
    | LoadFlag                               // head->passed.load
    | CheckFree                              // free_head != head
    | ReadFreeNext                           // next = free_head->next
    | Delete(next: nat)                      // delete free_head
    | Advance(next: nat)                     // free_head = next
    | StoreFlag                              // head->passed.store
    | PostLead                               // sem_post of the other head's lead

  datatype Head = Head(at: HeadAt, node: nat, items: nat, lead: nat, taken: seq<Request>)

  datatype State = State(
    producer: ProducerAt, submitted: nat, tail: nat,
    nodes: seq<Node>, freed: set<nat>, freeHead: nat,
    heads: seq<Head>)

  datatype Config = Config(stream: seq<Request>, ahead0: nat, ahead1: nat)

  /** The constructor gives each head the lead meant for the other one. */
  function LeadOf(c: Config, h: nat): nat {
    if h == 0 then c.ahead1 else c.ahead0
  }

  function Initial(c: Config): State {
    State(Ready, 0, 0, [Node(None, None, false)], {}, 0,
          [Head(Idle, 0, 0, LeadOf(c, 0), []), Head(Idle, 0, 0, LeadOf(c, 1), [])])
  }

  // ---- steps ----

  datatype Step = Produce | Pop(h: nat)

  predicate Enabled(c: Config, s: State, step: Step) {
    match step
    case Produce => s.producer.Ready? ==> s.submitted < |c.stream|
    case Pop(h) =>
      && h < 2 && |s.heads| == 2
      && (s.heads[h].at.Idle? ==> s.heads[h].items > 0)
      && (s.heads[h].at.HasItem? ==> s.heads[h].lead > 0)
  }

  /** The nodes a step dereferences. */
  function Touches(s: State, step: Step): set<nat>
    requires step.Pop? ==> step.h < |s.heads|
  {
    match step
    case Produce => if s.producer.Allocated? then {s.tail} else {}
    case Pop(h) =>
      match s.heads[h].at
      case ReadNext => {s.heads[h].node}
      case ReadValue(to) => {to}
      case LoadFlag => {s.heads[h].node}
      case ReadFreeNext => {s.freeHead}
      case Delete(_) => {s.freeHead}
      case StoreFlag => {s.heads[h].node}
      case _ => {}
  }

  /** Every pointer the step follows is initialised and points to a node that has not been deleted. */
  predicate Safe(c: Config, s: State, step: Step) {
    && |s.heads| == 2 && (step.Pop? ==> step.h < 2)
    && (forall k <- Touches(s, step) :: k < |s.nodes| && k !in s.freed)
    && match step
       case Produce => s.submitted < |c.stream| && |s.nodes| > 0
       case Pop(h) =>
         match s.heads[h].at
         case ReadNext => s.nodes[s.heads[h].node].next.Some?
         case ReadValue(to) => s.nodes[to].value.Some?
         case ReadFreeNext => s.nodes[s.freeHead].next.Some?
         case _ => true
  }

  function ProduceStep(c: Config, s: State): State
    requires Safe(c, s, Produce)
  {
    match s.producer
    case Ready => s.(nodes := s.nodes + [Node(Some(c.stream[s.submitted]), None, false)], producer := Allocated)
    case Allocated =>
      assert s.tail in Touches(s, Produce);
      s.(nodes := s.nodes[s.tail := s.nodes[s.tail].(next := Some(|s.nodes| - 1))], producer := Linked)
    case Linked => s.(tail := |s.nodes| - 1, producer := Pushed)
    case Pushed => Notified(s, 0).(producer := NotifiedFirst)
    case NotifiedFirst => Notified(s, 1).(producer := Ready, submitted := s.submitted + 1)
  }

  function Notified(s: State, h: nat): State
    requires h < |s.heads|
  {
    s.(heads := s.heads[h := s.heads[h].(items := s.heads[h].items + 1)])
  }

  /** The next moment of the head that steps. */
  function Own(c: Config, s: State, h: nat): Head
    requires Enabled(c, s, Pop(h)) && Safe(c, s, Pop(h))
  {
    var head := s.heads[h];
    assert head.at.LoadFlag? || head.at.ReadNext? ==> head.node in Touches(s, Pop(h));
    assert head.at.ReadValue? ==> head.at.to in Touches(s, Pop(h));
    assert head.at.ReadFreeNext? ==> s.freeHead in Touches(s, Pop(h));
    match head.at
    case Idle => head.(at := HasItem, items := head.items - 1)
    case HasItem => head.(at := ReadNext, lead := head.lead - 1)
    case ReadNext => head.(at := ReadValue(s.nodes[head.node].next.value))
    case ReadValue(to) => head.(at := Move(to, s.nodes[to].value.value))
    case Move(to, value) => head.(at := LoadFlag, node := to, taken := head.taken + [value])
    case LoadFlag => head.(at := if s.nodes[head.node].passed then CheckFree else StoreFlag)
    case CheckFree => head.(at := if s.freeHead != head.node then ReadFreeNext else PostLead)
    case ReadFreeNext => head.(at := Delete(s.nodes[s.freeHead].next.value))
    case Delete(next) => head.(at := Advance(next))
    case Advance(_) => head.(at := CheckFree)
    case StoreFlag => head.(at := PostLead)
    case PostLead => head.(at := Idle)
  }

  /** What it does to the rest: `StoreFlag` flags the node, `Delete` and `Advance` take the first node off
      the list, `PostLead` lets the other head go on. */
  function PopStep(c: Config, s: State, h: nat): State
    requires Enabled(c, s, Pop(h)) && Safe(c, s, Pop(h))
  {
    var (head, other) := (s.heads[h], s.heads[1 - h]);
    assert head.at.StoreFlag? ==> head.node in Touches(s, Pop(h));
    s.(nodes := if head.at.StoreFlag? then s.nodes[head.node := s.nodes[head.node].(passed := true)] else s.nodes,
       freed := if head.at.Delete? then s.freed + {s.freeHead} else s.freed,
       freeHead := if head.at.Advance? then head.at.next else s.freeHead,
       heads := s.heads[h := Own(c, s, h)][1 - h := other.(lead := other.lead + One(head.at.PostLead?))])
  }

  ghost predicate Next(c: Config, s: State, step: Step, s': State) {
    && Enabled(c, s, step) && Safe(c, s, step)
    && s' == match step
             case Produce => ProduceStep(c, s)
             case Pop(h) => PopStep(c, s, h)
  }

  /** `steps` is an execution from the initial state that ends in `s`. */
  ghost predicate Run(c: Config, steps: seq<Step>, s: State) {
    exists states: seq<State> :: Passes(c, steps, states) && states[|steps|] == s
  }

  /** The states an execution goes through. */
  ghost predicate Passes(c: Config, steps: seq<Step>, states: seq<State>) {
    && |states| == |steps| + 1 && states[0] == Initial(c)
    && forall i :: 0 <= i < |steps| ==> Next(c, states[i], steps[i], states[i + 1])
  }

  lemma LastStep(c: Config, steps: seq<Step>, s: State) returns (before: State)
    requires Run(c, steps, s) && steps != []
    ensures Run(c, steps[..|steps| - 1], before) && Next(c, before, steps[|steps| - 1], s)
  {
    hide Next;
    var n := |steps| - 1;
    var states :| Passes(c, steps, states) && states[|steps|] == s;
    before := states[n];
    assert Next(c, states[n], steps[n], states[n + 1]);
    assert Passes(c, steps[..n], states[..n + 1]);
  }

  // ---- the invariant ----

  /** How many nodes the list has after the sentinel. */
  function Chain(s: State): nat {
    s.submitted + One(!s.producer.Ready? && !s.producer.Allocated?)
  }

  function NotifiedTo(s: State, h: nat): nat {
    s.submitted + One(h == 0 && s.producer.NotifiedFirst?)
  }

  predicate BeforeMove(at: HeadAt) {
    at.ReadNext? || at.ReadValue? || at.Move?
  }

  predicate Freeing(at: HeadAt) {
    at.CheckFree? || at.ReadFreeNext? || at.Delete? || at.Advance?
  }

  predicate AfterMove(at: HeadAt) {
    at.LoadFlag? || at.StoreFlag? || at.PostLead? || Freeing(at)
  }

  /** The head has taken node `k` and is through with its flag. */
  predicate Done(head: Head, k: nat) {
    head.node > k || (head.node == k && !head.at.LoadFlag? && !head.at.StoreFlag? && !Freeing(head.at))
  }

  /** The list: node k + 1 follows node k and carries request k; a node is flagged only by a head that
      is through with it. */
  ghost predicate ListOk(c: Config, s: State) {
    && |s.heads| == 2
    && |s.nodes| == s.submitted + 1 + One(!s.producer.Ready?)
    && |s.nodes| <= |c.stream| + 1
    && s.tail == s.submitted + One(s.producer.Pushed? || s.producer.NotifiedFirst?)
    && (forall k: nat :: 0 < k < |s.nodes| ==> s.nodes[k].value == Some(c.stream[k - 1]))
    && (forall k: nat :: k < Chain(s) ==> s.nodes[k].next == Some(k + 1))
    && (forall k: nat :: 0 < k < |s.nodes| && s.nodes[k].passed ==> Done(s.heads[0], k) || Done(s.heads[1], k))
  }

  ghost predicate HeadOk(c: Config, s: State, h: nat)
    requires h < |s.heads| == 2
  {
    var head := s.heads[h];
    && head.items + head.node + One(head.at.HasItem? || BeforeMove(head.at)) == NotifiedTo(s, h)
    && head.taken <= c.stream && |head.taken| == head.node
    && (head.at.ReadValue? || head.at.Move? ==> head.at.to == head.node + 1)
    && (head.at.Move? ==> head.node < |c.stream| && head.at.value == c.stream[head.node])
    && (AfterMove(head.at) ==> head.node > 0)
  }

  /** The lead of a head: what it was given, one for every item the other head has taken and posted. */
  ghost predicate LeadOk(c: Config, s: State, h: nat)
    requires h < |s.heads| == 2
  {
    var (head, other) := (s.heads[h], s.heads[1 - h]);
    head.lead + head.node + One(BeforeMove(head.at)) + One(AfterMove(other.at)) == LeadOf(c, h) + other.node
  }

  /** A head that deletes has been overtaken by the other one, and deletes only what lies behind it. */
  ghost predicate FreeOk(s: State, h: nat)
    requires h < |s.heads| == 2
  {
    var (head, other) := (s.heads[h], s.heads[1 - h]);
    && s.freeHead <= head.node
    && (head.at.LoadFlag? || head.at.StoreFlag? ==> s.freeHead < head.node)
    && (Freeing(head.at) ==> Done(other, head.node))
    && (Freeing(head.at) && !head.at.CheckFree? ==> s.freeHead < head.node)
    && (head.at.Delete? || head.at.Advance? ==> head.at.next == s.freeHead + 1)
  }

  /** Exactly the nodes before `free_head` are deleted, and `free_head` itself once it has been deleted. */
  ghost predicate FreedOk(s: State)
    requires |s.heads| == 2
  {
    forall k: nat :: k in s.freed <==>
      k < s.freeHead || (k == s.freeHead && (s.heads[0].at.Advance? || s.heads[1].at.Advance?))
  }

  /** A head that is through with a node has flagged it or deleted everything before it. */
  ghost predicate FlagOk(s: State, h: nat)
    requires h < |s.heads|
  {
    forall k: nat :: 0 < k < |s.nodes| && Done(s.heads[h], k) ==> s.nodes[k].passed || k <= s.freeHead
  }

  ghost predicate Inv(c: Config, s: State) {
    && ListOk(c, s) && FreedOk(s) && FlagOk(s, 0) && FlagOk(s, 1)
    && HeadOk(c, s, 0) && LeadOk(c, s, 0) && FreeOk(s, 0)
    && HeadOk(c, s, 1) && LeadOk(c, s, 1) && FreeOk(s, 1)
  }

  // ---- every step keeps it ----

  /** The two heads are never in the deleting loop together. */
  lemma OneDeletes(s: State)
    requires |s.heads| == 2 && FreeOk(s, 0) && FreeOk(s, 1)
    ensures !(Freeing(s.heads[0].at) && Freeing(s.heads[1].at))
  {
  }

  lemma PopIsSafe(c: Config, s: State, h: nat)
    requires h < 2 && ListOk(c, s) && FreedOk(s) && HeadOk(c, s, h) && FreeOk(s, h) && Enabled(c, s, Pop(h))
    requires Freeing(s.heads[h].at) ==> !Freeing(s.heads[1 - h].at)
    requires s.freeHead <= s.heads[1 - h].node
    requires Freeing(s.heads[1 - h].at) && !s.heads[1 - h].at.CheckFree? ==> s.freeHead < s.heads[h].node
    ensures Safe(c, s, Pop(h))
  {
    hide Done;
  }

  lemma InvIsSafe(c: Config, s: State, step: Step)
    requires Inv(c, s) && Enabled(c, s, step)
    ensures Safe(c, s, step)
  {
    OneDeletes(s);
    hide LeadOk, FlagOk, Done;
    match step
    case Produce => hide HeadOk;
    case Pop(h) =>
      assert HeadOk(c, s, h) && FreeOk(s, h) && FreeOk(s, 1 - h);
      hide Inv;
      PopIsSafe(c, s, h);
  }

  lemma ProduceList(c: Config, s: State)
    requires ListOk(c, s) && Enabled(c, s, Produce) && Safe(c, s, Produce)
    ensures ListOk(c, ProduceStep(c, s))
  {
    var s' := ProduceStep(c, s);
    assert forall k: nat, h :: 0 <= h < 2 ==> (Done(s'.heads[h], k) <==> Done(s.heads[h], k));
  }

  lemma ProduceHeads(c: Config, s: State, h: nat)
    requires h < |s.heads| == 2 && HeadOk(c, s, h) && LeadOk(c, s, h) && FreeOk(s, h) && Safe(c, s, Produce)
    ensures var s' := ProduceStep(c, s); HeadOk(c, s', h) && LeadOk(c, s', h) && FreeOk(s', h)
  {
    var s' := ProduceStep(c, s);
    assert forall g: nat :: g < 2 ==> |s'.heads| == 2 && s'.heads[g] == s.heads[g].(items := s'.heads[g].items);
    assert LeadOk(c, s', h) && FreeOk(s', h) by { hide HeadOk, ProduceStep; }
    hide LeadOk, FreeOk;
  }

  lemma PopList(c: Config, s: State, h: nat)
    requires h < 2 && ListOk(c, s) && HeadOk(c, s, h) && Enabled(c, s, Pop(h)) && Safe(c, s, Pop(h))
    ensures ListOk(c, PopStep(c, s, h))
  {
    var s' := PopStep(c, s, h);
    assert forall k: nat :: Done(s.heads[h], k) ==> Done(s'.heads[h], k) by {
      assert s'.heads[h] == Own(c, s, h);
      hide ListOk, HeadOk;
    }
    assert s'.heads[1 - h].node == s.heads[1 - h].node && s'.heads[1 - h].at == s.heads[1 - h].at;
    hide Own;
    forall k: nat | 0 < k < |s.nodes| && s'.nodes[k].passed ensures Done(s'.heads[0], k) || Done(s'.heads[1], k) {
      if !s.nodes[k].passed {
        assert s.heads[h].at.StoreFlag? && k == s.heads[h].node;
        assert Done(s'.heads[h], k) by { StoredIsDone(c, s, h); }
      } else {
        assert Done(s.heads[0], k) || Done(s.heads[1], k);
      }
    }
    hide Done;
  }

  lemma StoredIsDone(c: Config, s: State, h: nat)
    requires Enabled(c, s, Pop(h)) && Safe(c, s, Pop(h)) && s.heads[h].at.StoreFlag?
    ensures Done(PopStep(c, s, h).heads[h], s.heads[h].node)
  {
  }

  lemma PopOwn(c: Config, s: State, h: nat)
    requires h < 2 && ListOk(c, s) && HeadOk(c, s, h) && Enabled(c, s, Pop(h)) && Safe(c, s, Pop(h))
    ensures HeadOk(c, PopStep(c, s, h), h)
  {
    assert PopStep(c, s, h).heads[h] == Own(c, s, h);
    hide PopStep;
  }

  lemma PopOther(c: Config, s: State, h: nat)
    requires h < 2 && ListOk(c, s) && HeadOk(c, s, 1 - h) && Enabled(c, s, Pop(h)) && Safe(c, s, Pop(h))
    ensures HeadOk(c, PopStep(c, s, h), 1 - h)
  {
    hide Own;
  }

  lemma PopLeads(c: Config, s: State, h: nat)
    requires h < 2 && ListOk(c, s) && HeadOk(c, s, h) && Enabled(c, s, Pop(h)) && Safe(c, s, Pop(h))
    requires LeadOk(c, s, h) && LeadOk(c, s, 1 - h)
    ensures var s' := PopStep(c, s, h); LeadOk(c, s', h) && LeadOk(c, s', 1 - h)
  {
    var s' := PopStep(c, s, h);
    assert s'.heads[h] == Own(c, s, h) && s'.heads[1 - h].node == s.heads[1 - h].node
        && s'.heads[1 - h].at == s.heads[1 - h].at
        && s'.heads[1 - h].lead == s.heads[1 - h].lead + One(s.heads[h].at.PostLead?) by { hide Own, LeadOk; }
    assert |s'.heads| == 2;
    hide PopStep, ListOk;
    assert LeadOk(c, s', 1 - h);
  }

  lemma PopFreeLoading(c: Config, s: State, h: nat)
    requires h < 2 && ListOk(c, s) && HeadOk(c, s, h) && FreeOk(s, h) && s.heads[h].at.LoadFlag?
    requires Enabled(c, s, Pop(h)) && Safe(c, s, Pop(h))
    ensures FreeOk(PopStep(c, s, h), h)
  {
    assert s.nodes[s.heads[h].node].passed ==> Done(s.heads[1 - h], s.heads[h].node);
    hide ListOk, HeadOk;
  }

  lemma PopFreeDeleting(c: Config, s: State, h: nat)
    requires h < 2 && ListOk(c, s) && HeadOk(c, s, h) && FreeOk(s, h) && Freeing(s.heads[h].at)
    requires Enabled(c, s, Pop(h)) && Safe(c, s, Pop(h))
    ensures FreeOk(PopStep(c, s, h), h)
  {
    assert s.heads[h].at.ReadFreeNext? ==> s.nodes[s.freeHead].next == Some(s.freeHead + 1);
    hide ListOk, HeadOk, Safe;
  }

  lemma PopFreeOwn(c: Config, s: State, h: nat)
    requires h < 2 && ListOk(c, s) && HeadOk(c, s, h) && FreeOk(s, h) && FreeOk(s, 1 - h)
    requires Enabled(c, s, Pop(h)) && Safe(c, s, Pop(h))
    ensures FreeOk(PopStep(c, s, h), h)
  {
    if s.heads[h].at.LoadFlag? {
      PopFreeLoading(c, s, h);
    } else if Freeing(s.heads[h].at) {
      PopFreeDeleting(c, s, h);
    } else {
      hide ListOk, Safe, Done;
      assert PopStep(c, s, h).heads[h] == Own(c, s, h);
    }
  }

  lemma PopFreeOther(c: Config, s: State, h: nat)
    requires h < 2 && ListOk(c, s) && HeadOk(c, s, h) && FreeOk(s, h) && FreeOk(s, 1 - h)
    requires Enabled(c, s, Pop(h)) && Safe(c, s, Pop(h))
    ensures FreeOk(PopStep(c, s, h), 1 - h)
  {
  }

  lemma PopFreed(c: Config, s: State, h: nat)
    requires h < 2 && |s.heads| == 2 && FreedOk(s) && FreeOk(s, h) && FreeOk(s, 1 - h)
    requires Enabled(c, s, Pop(h)) && Safe(c, s, Pop(h))
    ensures FreedOk(PopStep(c, s, h))
  {
    OneDeletes(s);
  }

  lemma PopFlags(c: Config, s: State, h: nat)
    requires h < 2 && ListOk(c, s) && HeadOk(c, s, h) && FlagOk(s, h) && FlagOk(s, 1 - h) && FreeOk(s, h)
    requires Enabled(c, s, Pop(h)) && Safe(c, s, Pop(h))
    ensures FlagOk(PopStep(c, s, h), h) && FlagOk(PopStep(c, s, h), 1 - h)
  {
    var s' := PopStep(c, s, h);
    assert s'.heads[h] == Own(c, s, h);
    assert s'.freeHead >= s.freeHead;
    assert s'.heads[1 - h].node == s.heads[1 - h].node && s'.heads[1 - h].at == s.heads[1 - h].at;
    forall k: nat | 0 < k < |s'.nodes| && Done(s'.heads[1 - h], k) ensures s'.nodes[k].passed || k <= s'.freeHead {
      assert Done(s.heads[1 - h], k);
    }
    hide ListOk;
  }

  lemma ProduceFlags(c: Config, s: State, h: nat)
    requires h < 2 && ListOk(c, s) && HeadOk(c, s, h) && FlagOk(s, h) && Safe(c, s, Produce)
    ensures FlagOk(ProduceStep(c, s), h)
  {
    var s' := ProduceStep(c, s);
    assert s'.heads[h] == s.heads[h].(items := s'.heads[h].items) && s'.freeHead == s.freeHead;
    assert forall k: nat :: Done(s'.heads[h], k) <==> Done(s.heads[h], k);
    assert !Done(s.heads[h], |s.nodes|);
  }

  lemma ProduceFreed(c: Config, s: State)
    requires |s.heads| == 2 && FreedOk(s) && Safe(c, s, Produce)
    ensures FreedOk(ProduceStep(c, s))
  {
  }

  lemma StepKeeps(c: Config, s: State, step: Step, s': State)
    requires Inv(c, s) && Next(c, s, step, s')
    ensures Inv(c, s')
  {
    assert |s.heads| == 2;
    hide ListOk, HeadOk, LeadOk, FreeOk, FreedOk, FlagOk, PopStep, ProduceStep, Safe;
    match step
    case Produce =>
      ProduceList(c, s);
      ProduceHeads(c, s, 0);
      ProduceHeads(c, s, 1);
      ProduceFreed(c, s);
      ProduceFlags(c, s, 0);
      ProduceFlags(c, s, 1);
    case Pop(h) =>
      assert h == 0 || h == 1;
      PopList(c, s, h);
      PopOwn(c, s, h);
      PopOther(c, s, h);
      PopLeads(c, s, h);
      PopFreeOwn(c, s, h);
      PopFreeOther(c, s, h);
      PopFreed(c, s, h);
      PopFlags(c, s, h);
  }

  lemma LoadTellsWhoIsLater(c: Config, s: State, h: nat)
    requires h < 2 && ListOk(c, s) && HeadOk(c, s, h) && HeadOk(c, s, 1 - h) && FreeOk(s, h) && FlagOk(s, 1 - h)
    requires s.heads[h].at.LoadFlag? && Enabled(c, s, Pop(h)) && Safe(c, s, Pop(h))
    ensures PopStep(c, s, h).heads[h].at.CheckFree? <==> Done(s.heads[1 - h], s.heads[h].node)
  {
    var node := s.heads[h].node;
    assert PopStep(c, s, h).heads[h] == Own(c, s, h);
    assert !Done(s.heads[h], node) && 0 < node < |s.nodes|;
    hide PopStep;
  }

  lemma InitialInv(c: Config)
    ensures Inv(c, Initial(c))
  {
  }

  lemma {:induction false} RunInv(c: Config, steps: seq<Step>, s: State)
    requires Run(c, steps, s)
    ensures Inv(c, s)
  {
    hide Inv, Next;
    if steps == [] {
      InitialInv(c);
    } else {
      var n := |steps| - 1;
      var before := LastStep(c, steps, s);
      RunInv(c, steps[..n], before);
      StepKeeps(c, before, steps[n], s);
    }
  }

  // ---- over all executions ----

  /** No step follows a pointer that is uninitialised or leads to a deleted node: whatever the
      semaphores let happen is defined. */
  lemma NoDanglingPointer(c: Config, steps: seq<Step>, s: State, step: Step)
    requires Run(c, steps, s) && Enabled(c, s, step)
    ensures Safe(c, s, step)
    ensures forall k <- Touches(s, step) :: k < |s.nodes| && k !in s.freed
  {
    RunInv(c, steps, s);
    InvIsSafe(c, s, step);
  }

  /** A node is deleted at most once, and only when both heads have moved beyond it; the two heads are
      never in the deleting loop together. */
  lemma DeletedOnce(c: Config, steps: seq<Step>, s: State)
    requires Run(c, steps, s)
    ensures |s.heads| == 2 && !(Freeing(s.heads[0].at) && Freeing(s.heads[1].at))
    ensures forall h: nat :: h < 2 && s.heads[h].at.Delete? ==> s.freeHead !in s.freed
    ensures forall k <- s.freed :: k < s.heads[0].node && k < s.heads[1].node && k < s.tail
  {
    RunInv(c, steps, s);
    OneDeletes(s);
    hide LeadOk;
    forall h: nat | h < 2 && s.heads[h].at.Delete? ensures s.freeHead !in s.freed {
      assert h == 0 || h == 1;
    }
  }

  /** A head deletes exactly if the other one is through with the node at the moment it loads the flag. */
  lemma LaterHeadDeletes(c: Config, steps: seq<Step>, s: State, h: nat)
    requires Run(c, steps, s) && h < 2 && |s.heads| == 2 && s.heads[h].at.LoadFlag?
    ensures Enabled(c, s, Pop(h)) && Safe(c, s, Pop(h))
    ensures PopStep(c, s, h).heads[h].at.CheckFree? <==> Done(s.heads[1 - h], s.heads[h].node)
  {
    RunInv(c, steps, s);
    InvIsSafe(c, s, Pop(h));
    assert h == 0 || h == 1;
    hide ListOk, HeadOk, LeadOk, FreeOk, FreedOk, FlagOk, PopStep;
    LoadTellsWhoIsLater(c, s, h);
  }

  /** Each head returns the pushed values in order. */
  lemma HeadsDeliverTheStream(c: Config, steps: seq<Step>, s: State, h: nat)
    requires Run(c, steps, s) && h < 2
    ensures |s.heads| == 2 && s.heads[h].taken <= c.stream && |s.heads[h].taken| == s.heads[h].node
  {
    RunInv(c, steps, s);
    assert h == 0 || h == 1;
    hide LeadOk, FreeOk, FreedOk;
  }

  /** The leads are the other way round than in `Queue`: head 0 may be `ahead1` items in front. */
  lemma LeadsAreSwapped(c: Config, steps: seq<Step>, s: State)
    requires Run(c, steps, s)
    ensures |s.heads| == 2
    ensures -(c.ahead0 as int) <= s.heads[0].node - s.heads[1].node <= c.ahead1
  {
    RunInv(c, steps, s);
    hide FreeOk, FreedOk;
  }
}
