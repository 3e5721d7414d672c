/** The queue with two heads that limit each other's lead. */
module TwoHeaded {

  /** Its two buffers and the two counting semaphores of each head. */
  datatype Fields<T> = Fields(first: seq<T>, second: seq<T>, items0: nat, items1: nat, ahead0: nat, ahead1: nat)

  function Post<T>(f: Fields<T>, head: nat): Fields<T> {
    if head == 0 then f.(items0 := f.items0 + 1) else f.(items1 := f.items1 + 1)
  }

  function PostLead<T>(f: Fields<T>, head: nat): Fields<T> {
    if head == 0 then f.(ahead0 := f.ahead0 + 1) else f.(ahead1 := f.ahead1 + 1)
  }

  /** A head that is let through has one token of each of its semaphores. */
  predicate LetThrough<T>(f: Fields<T>, head: nat) {
    if head == 0 then f.items0 > 0 && f.ahead0 > 0 else f.items1 > 0 && f.ahead1 > 0
  }

  function Waited<T>(f: Fields<T>, head: nat): Fields<T>
    requires LetThrough(f, head)
  {
    if head == 0 then f.(items0 := f.items0 - 1, ahead0 := f.ahead0 - 1)
    else f.(items1 := f.items1 - 1, ahead1 := f.ahead1 - 1)
  }

  function Front<T>(f: Fields<T>, head: nat): seq<T> {
    if head == 0 then f.first else f.second
  }

  /** Taking an item lets the other head come one closer. */
  function Popped<T>(f: Fields<T>, head: nat): Fields<T>
    requires Front(f, head) != []
  {
    if head == 0 then PostLead(f.(first := f.first[1..]), 1) else PostLead(f.(second := f.second[1..]), 0)
  }

  class Queue<T> {
    var queues0: seq<T>
    var queues1: seq<T>
    var semaphore0: nat
    var semaphore1: nat
    var ahead0: nat
    var ahead1: nat

    ghost function View(): Fields<T>
      reads this
    {
      Fields(queues0, queues1, semaphore0, semaphore1, ahead0, ahead1)
    }

    constructor WithLeads(ahead0: nat, ahead1: nat)
      ensures View() == Fields([], [], 0, 0, ahead0, ahead1)
    {
      queues0, queues1 := [], [];
      semaphore0, semaphore1 := 0, 0;
      this.ahead0, this.ahead1 := ahead0, ahead1;
    }

    /** The distance between the heads is split between the two leads; an odd unit goes to head 1. */
    constructor WithDistance(distance: nat)
      ensures queues0 == queues1 == [] && semaphore0 == semaphore1 == 0
      ensures ahead0 + ahead1 == distance && ahead0 <= ahead1 <= ahead0 + 1
    {
      queues0, queues1 := [], [];
      semaphore0, semaphore1 := 0, 0;
      ahead0, ahead1 := distance / 2, distance / 2 + distance % 2;
    }

    method Push(value: T)
      modifies this
      ensures View() == old(View()).(first := old(queues0) + [value], second := old(queues1) + [value])
    {
      queues0 := queues0 + [value];
      queues1 := queues1 + [value];
    }

    method Notify(head: nat)
      requires head < 2
      modifies this
      ensures View() == Post(old(View()), head)
    {
      if head == 0 {
        semaphore0 := semaphore0 + 1;
      } else {
        semaphore1 := semaphore1 + 1;
      }
    }

    /** Lets a head through once more than there are items. */
    method Free(head: nat)
      requires head < 2
      modifies this
      ensures View() == PostLead(Post(old(View()), head), head)
    {
      Notify(head);
      if head == 0 {
        ahead0 := ahead0 + 1;
      } else {
        ahead1 := ahead1 + 1;
      }
    }

    /** A head waits until there is an item and it is not too far ahead; here it is let through. */
    method Wait(head: nat)
      requires head < 2 && LetThrough(View(), head)
      modifies this
      ensures View() == Waited(old(View()), head)
    {
      if head == 0 {
        semaphore0 := semaphore0 - 1;
        ahead0 := ahead0 - 1;
      } else {
        semaphore1 := semaphore1 - 1;
        ahead1 := ahead1 - 1;
      }
    }

    method Pop(head: nat) returns (value: T)
      requires head < 2 && Front(View(), head) != []
      modifies this
      ensures value == Front(old(View()), head)[0]
      ensures View() == Popped(old(View()), head)
    {
      if head == 0 {
        value := queues0[0];
        queues0 := queues0[1..];
        ahead1 := ahead1 + 1;
      } else {
        value := queues1[0];
        queues1 := queues1[1..];
        ahead0 := ahead0 + 1;
      }
    }
  }
}

/** The queue in use: a producer, the scheduling thread at head 0 and the graph thread at head 1, with
    the stop-the-world handshake in which the scheduling thread copies the graph. */
module Handshake {
  import opened Counting
  import opened Requests
  import TwoHeaded

  datatype ProducerAt = Idle | InFirst | InBoth | NotifiedFirst

  datatype SchedulerAt =
    | Ready | HaveItem | HaveLead | Popped | Posted   // wait<0>, pop<0>
    | Deciding                                        // the request is dispatched and counted
    | Noted | FreedItem | FreedLead                   // note_ = true; free<1>
    | AtFirst | Copying | AtSecond                    // between the barriers the graph is copied

  datatype GraphAt =
    | GReady | GHaveItem | GHaveLead | GPopping | GPopped | GPosted   // wait<1>, pop<1>, process
    | Clearing | Arriving | GAtFirst | Between | GAtSecond            // parked

  /** `first` and `second` are the two buffers; `items` and `lead` the semaphores of the two heads;
      `taken0` and `taken1` what the heads were given so far. `handshakes` and `parks` count how often
      the scheduling thread asked and the graph thread complied, the arrivals those at the barrier. */
  datatype State = State(
    producer: ProducerAt, submitted: nat,
    first: seq<Request>, second: seq<Request>, items0: nat, items1: nat, lead0: nat, lead1: nat,
    taken0: seq<Request>, taken1: seq<Request>,
    scheduler: SchedulerAt, dispatched: nat, note: bool,
    graph: GraphAt, processed: nat,
    handshakes: nat, parks: nat, schedulerArrivals: nat, graphArrivals: nat)

  datatype Config = Config(stream: seq<Request>, ahead0: nat, ahead1: nat)

  function Initial(c: Config): State {
    State(Idle, 0, [], [], 0, 0, c.ahead0, c.ahead1, [], [], Ready, 0, false, GReady, 0, 0, 0, 0, 0)
  }

  // ---- steps ----

  /** `repartition` stands for the trigger of `schedule_and_answer`. */
  datatype Step = Produce | Schedule(repartition: bool) | Graph

  predicate Enabled(c: Config, s: State, step: Step) {
    match step
    case Produce => !s.producer.Idle? || s.submitted < |c.stream|
    case Schedule(_) =>
      (match s.scheduler
       case Ready => s.items0 > 0
       case HaveItem => s.lead0 > 0
       case AtFirst => s.graphArrivals >= s.schedulerArrivals
       case AtSecond => s.graphArrivals >= s.schedulerArrivals
       case _ => true)
    case Graph =>
      (match s.graph
       case GReady => s.items1 > 0
       case GHaveItem => s.lead1 > 0
       case GAtFirst => s.schedulerArrivals >= s.graphArrivals
       case GAtSecond => s.schedulerArrivals >= s.graphArrivals
       case _ => true)
  }

  function ProduceStep(c: Config, s: State): State
    requires s.submitted < |c.stream|
  {
    var m := c.stream[s.submitted];
    match s.producer
    case Idle => s.(first := s.first + [m], producer := InFirst)
    case InFirst => s.(second := s.second + [m], producer := InBoth)
    case InBoth => s.(items0 := s.items0 + 1, producer := NotifiedFirst)
    case NotifiedFirst => s.(items1 := s.items1 + 1, producer := Idle, submitted := s.submitted + 1)
  }

  function ScheduleStep(s: State, repartition: bool): State
    requires s.scheduler.Ready? ==> s.items0 > 0
    requires s.scheduler.HaveItem? ==> s.lead0 > 0
    requires s.scheduler.HaveLead? ==> s.first != []
  {
    match s.scheduler
    case Ready => s.(items0 := s.items0 - 1, scheduler := HaveItem)
    case HaveItem => s.(lead0 := s.lead0 - 1, scheduler := HaveLead)
    case HaveLead => s.(taken0 := s.taken0 + [s.first[0]], first := s.first[1..], scheduler := Popped)
    case Popped => s.(lead1 := s.lead1 + 1, scheduler := Posted)
    case Posted => s.(dispatched := s.dispatched + 1, scheduler := Deciding)
    case Deciding =>
      if repartition then s.(note := true, handshakes := s.handshakes + 1, scheduler := Noted)
      else s.(scheduler := Ready)
    case Noted => s.(items1 := s.items1 + 1, scheduler := FreedItem)
    case FreedItem => s.(lead1 := s.lead1 + 1, scheduler := FreedLead)
    case FreedLead => s.(schedulerArrivals := s.schedulerArrivals + 1, scheduler := AtFirst)
    case AtFirst => s.(scheduler := Copying)
    case Copying => s.(schedulerArrivals := s.schedulerArrivals + 1, scheduler := AtSecond)
    case AtSecond => s.(scheduler := Ready)
  }

  function GraphStep(s: State): State
    requires s.graph.GReady? ==> s.items1 > 0
    requires s.graph.GHaveItem? ==> s.lead1 > 0
    requires s.graph.GPopping? ==> s.second != []
  {
    match s.graph
    case GReady => s.(items1 := s.items1 - 1, graph := GHaveItem)
    case GHaveItem => s.(lead1 := s.lead1 - 1, graph := GHaveLead)
    case GHaveLead =>
      if s.note && s.processed + 1 >= s.dispatched then s.(parks := s.parks + 1, graph := Clearing)
      else s.(graph := GPopping)
    case GPopping => s.(taken1 := s.taken1 + [s.second[0]], second := s.second[1..], graph := GPopped)
    case GPopped => s.(lead0 := s.lead0 + 1, graph := GPosted)
    case GPosted => s.(processed := s.processed + 1, graph := GReady)
    case Clearing => s.(note := false, graph := Arriving)
    case Arriving => s.(graphArrivals := s.graphArrivals + 1, graph := GAtFirst)
    case GAtFirst => s.(graph := Between)
    case Between => s.(graphArrivals := s.graphArrivals + 1, graph := GAtSecond)
    case GAtSecond => s.(graph := GReady)
  }

  function Buffers(s: State): TwoHeaded.Fields<Request> {
    TwoHeaded.Fields(s.first, s.second, s.items0, s.items1, s.lead0, s.lead1)
  }

  /** The steps of a thread, taken without interruption, are the calls of the queue: `push`, `notify<0>`
      and `notify<1>` by the producer, `wait<0>` and `pop<0>` by the scheduling thread. */
  lemma SubmitIsItsCalls(c: Config, s: State)
    requires s.submitted < |c.stream| && s.producer.Idle?
    ensures var m := c.stream[s.submitted];
            var pushed := ProduceStep(c, ProduceStep(c, s));
            && Buffers(pushed) == Buffers(s).(first := s.first + [m], second := s.second + [m])
            && Buffers(ProduceStep(c, ProduceStep(c, pushed))) == TwoHeaded.Post(TwoHeaded.Post(Buffers(pushed), 0), 1)
  {
  }

  lemma ScheduleIsItsCalls(s: State)
    requires s.scheduler.Ready? && TwoHeaded.LetThrough(Buffers(s), 0) && s.first != []
    ensures var waited := ScheduleStep(ScheduleStep(s, false), false);
            var popped := ScheduleStep(ScheduleStep(waited, false), false);
            && Buffers(waited) == TwoHeaded.Waited(Buffers(s), 0)
            && Buffers(popped) == TwoHeaded.Popped(Buffers(waited), 0)
            && popped.taken0 == s.taken0 + [TwoHeaded.Front(Buffers(waited), 0)[0]]
  {
  }

  lemma FreeIsItsCalls(s: State)
    requires s.scheduler.Noted?
    ensures Buffers(ScheduleStep(ScheduleStep(s, false), false))
         == TwoHeaded.PostLead(TwoHeaded.Post(Buffers(s), 1), 1)
  {
  }

  /** `wait<1>` and `pop<1>` by the graph thread, unless it is asked to park. */
  lemma GraphIsItsCalls(s: State)
    requires s.graph.GReady? && TwoHeaded.LetThrough(Buffers(s), 1) && s.second != []
    requires !(s.note && s.processed + 1 >= s.dispatched)
    ensures var waited := GraphStep(GraphStep(s));
            var popped := GraphStep(GraphStep(GraphStep(waited)));
            && Buffers(waited) == TwoHeaded.Waited(Buffers(s), 1)
            && Buffers(popped) == TwoHeaded.Popped(Buffers(waited), 1)
            && popped.taken1 == s.taken1 + [TwoHeaded.Front(Buffers(waited), 1)[0]]
  {
  }

  // ---- the invariant ----

  function Pushed0(s: State): nat {
    s.submitted + One(!s.producer.Idle?)
  }

  function Pushed1(s: State): nat {
    s.submitted + One(s.producer.InBoth? || s.producer.NotifiedFirst?)
  }

  function Notified0(s: State): nat {
    s.submitted + One(s.producer.NotifiedFirst?)
  }

  predicate InHandshake(s: State) {
    s.scheduler.Noted? || s.scheduler.FreedItem? || s.scheduler.FreedLead?
    || s.scheduler.AtFirst? || s.scheduler.Copying? || s.scheduler.AtSecond?
  }

  predicate Parked(s: State) {
    s.graph.Clearing? || s.graph.Arriving? || s.graph.GAtFirst? || s.graph.Between? || s.graph.GAtSecond?
  }

  /** Both heads deliver prefixes of the submitted sequence, and the rest is in the buffers. */
  ghost predicate Delivered(c: Config, s: State) {
    && Pushed0(s) <= |c.stream|
    && s.taken0 + s.first == c.stream[..Pushed0(s)]
    && s.taken1 + s.second == c.stream[..Pushed1(s)]
  }

  /** Tokens of the item semaphores: one for every notification and every `free`, minus those used. */
  ghost predicate ItemTokens(s: State) {
    && s.items0 + |s.taken0| + One(s.scheduler.HaveItem? || s.scheduler.HaveLead?) == Notified0(s)
    && s.items1 + |s.taken1| + s.parks + One(s.graph.GHaveItem? || s.graph.GHaveLead? || s.graph.GPopping?)
         == s.submitted + s.handshakes - One(s.scheduler.Noted?)
    && |s.taken1| + One(s.graph.GPopping?) <= s.submitted
  }

  /** Tokens of the lead semaphores: the initial leads, one for every item the other head took, one for
      every `free`, minus those used. */
  ghost predicate LeadTokens(c: Config, s: State) {
    && s.lead0 + |s.taken0| + One(s.scheduler.HaveLead?) == c.ahead0 + |s.taken1| - One(s.graph.GPopped?)
    && s.lead1 + |s.taken1| + s.parks + One(s.graph.GHaveLead? || s.graph.GPopping?)
         == c.ahead1 + |s.taken0| - One(s.scheduler.Popped?)
            + s.handshakes - One(s.scheduler.Noted? || s.scheduler.FreedItem?)
    && |s.taken1| + One(s.graph.GPopping?) <= c.ahead1 + |s.taken0|
  }

  ghost predicate Counters(s: State) {
    && s.dispatched + One(s.scheduler.Popped? || s.scheduler.Posted?) == |s.taken0|
    && s.processed + One(s.graph.GPopped? || s.graph.GPosted?) == |s.taken1|
  }

  /** Between claiming the request to park and the arrival at the second barrier. */
  predicate Complying(s: State) {
    s.graph.Clearing? || s.graph.Arriving? || s.graph.GAtFirst? || s.graph.Between?
  }

  predicate Asking(s: State) {
    s.scheduler.Noted? || s.scheduler.FreedItem? || s.scheduler.FreedLead? || s.scheduler.AtFirst?
  }

  /** The two threads go through the two barrier rounds of one handshake together. */
  ghost predicate Rounds(s: State) {
    && s.parks <= s.handshakes <= s.parks + 1
    && (s.note <==> (s.handshakes == s.parks + 1 || s.graph.Clearing?))
    && (s.handshakes == s.parks + 1 ==> Asking(s) && !Complying(s))
    && s.schedulerArrivals == (if s.scheduler.Noted? || s.scheduler.FreedItem? || s.scheduler.FreedLead?
                               then 2 * s.handshakes - 2
                               else if s.scheduler.AtFirst? || s.scheduler.Copying? then 2 * s.handshakes - 1
                               else 2 * s.handshakes)
    && s.graphArrivals == (if s.graph.Clearing? || s.graph.Arriving? then 2 * s.parks - 2
                           else if s.graph.GAtFirst? || s.graph.Between? then 2 * s.parks - 1
                           else 2 * s.parks)
    && (s.scheduler.Copying? ==> s.graphArrivals >= s.schedulerArrivals)
    && (s.graphArrivals > s.schedulerArrivals ==> s.graph.GAtFirst? || s.graph.GAtSecond?)
    && (Complying(s) ==> InHandshake(s) && s.dispatched <= s.processed + 1)
    && (s.graph.Between? ==> s.schedulerArrivals >= s.graphArrivals)
    && (s.graph.GAtSecond? && s.parks == s.handshakes && InHandshake(s) ==> s.dispatched <= s.processed + 1)
  }

  ghost predicate Inv(c: Config, s: State) {
    Delivered(c, s) && ItemTokens(s) && LeadTokens(c, s) && Counters(s) && Rounds(s)
  }

  lemma InvAllowsPops(c: Config, s: State)
    requires Inv(c, s)
    ensures s.scheduler.HaveLead? ==> s.first != []
    ensures s.graph.GPopping? ==> s.second != []
    ensures !s.producer.Idle? ==> s.submitted < |c.stream|
  {
    hide LeadTokens, Rounds;
    assert |s.taken0| + |s.first| == Pushed0(s);
    assert |s.taken1| + |s.second| == Pushed1(s);
  }

  /** What a step does; the guards are those of the semaphores and the barrier only. */
  ghost predicate Next(c: Config, s: State, step: Step, s': State) {
    && Enabled(c, s, step)
    && match step
       case Produce => s.submitted < |c.stream| && s' == ProduceStep(c, s)
       case Schedule(r) => (s.scheduler.HaveLead? ==> s.first != []) && s' == ScheduleStep(s, r)
       case Graph => (s.graph.GPopping? ==> s.second != []) && s' == GraphStep(s)
  }

  lemma ProduceDelivers(c: Config, s: State)
    requires Delivered(c, s) && s.submitted < |c.stream|
    ensures Delivered(c, ProduceStep(c, s))
  {
    assert c.stream[..s.submitted] + [c.stream[s.submitted]] == c.stream[..s.submitted + 1];
  }

  lemma ProduceTokens(c: Config, s: State)
    requires ItemTokens(s) && LeadTokens(c, s) && s.submitted < |c.stream|
    ensures ItemTokens(ProduceStep(c, s)) && LeadTokens(c, ProduceStep(c, s))
  {
    var s' := ProduceStep(c, s);
    assert s'.taken0 == s.taken0 && s'.taken1 == s.taken1 && s'.scheduler == s.scheduler && s'.graph == s.graph;
    assert LeadTokens(c, s') by { hide ItemTokens; }
  }

  lemma ProduceRounds(c: Config, s: State)
    requires Counters(s) && Rounds(s) && s.submitted < |c.stream|
    ensures Counters(ProduceStep(c, s)) && Rounds(ProduceStep(c, s))
  {
    var s' := ProduceStep(c, s);
    assert s'.scheduler == s.scheduler && s'.graph == s.graph;
    assert Rounds(s') by { hide Counters; }
  }

  lemma ProduceKeeps(c: Config, s: State)
    requires Inv(c, s) && s.submitted < |c.stream|
    ensures Inv(c, ProduceStep(c, s))
  {
    hide Delivered, ItemTokens, LeadTokens, Counters, Rounds;
    ProduceDelivers(c, s);
    ProduceTokens(c, s);
    ProduceRounds(c, s);
  }

  /** The guard of a step of the scheduling thread, with what it may rely on. */
  predicate Schedules(s: State) {
    && (s.scheduler.Ready? ==> s.items0 > 0)
    && (s.scheduler.HaveItem? ==> s.lead0 > 0)
    && (s.scheduler.HaveLead? ==> s.first != [])
    && (s.scheduler.AtFirst? || s.scheduler.AtSecond? ==> s.graphArrivals >= s.schedulerArrivals)
  }

  lemma TakeFirst(taken: seq<Request>, buffer: seq<Request>)
    requires buffer != []
    ensures taken + [buffer[0]] + buffer[1..] == taken + buffer
  {
  }

  lemma ScheduleDelivers(c: Config, s: State, repartition: bool)
    requires Delivered(c, s) && Schedules(s)
    ensures Delivered(c, ScheduleStep(s, repartition))
  {
    var s' := ScheduleStep(s, repartition);
    assert Pushed0(s') == Pushed0(s) && Pushed1(s') == Pushed1(s) && s'.taken1 == s.taken1 && s'.second == s.second;
    if s.scheduler.HaveLead? {
      TakeFirst(s.taken0, s.first);
    } else {
      assert s'.taken0 == s.taken0 && s'.first == s.first;
    }
    hide ScheduleStep;
  }

  lemma ScheduleItems(s: State, repartition: bool)
    requires ItemTokens(s) && Schedules(s)
    ensures ItemTokens(ScheduleStep(s, repartition))
  {
    match s.scheduler
    case Ready =>
    case HaveItem =>
    case HaveLead =>
    case Deciding =>
    case Noted =>
    case _ =>
  }

  lemma ScheduleLeads(c: Config, s: State, repartition: bool)
    requires LeadTokens(c, s) && Schedules(s)
    ensures LeadTokens(c, ScheduleStep(s, repartition))
  {
    var s' := ScheduleStep(s, repartition);
    assert s'.graph == s.graph && s'.parks == s.parks && s'.taken1 == s.taken1;
  }

  lemma ScheduleRounds(s: State, repartition: bool)
    requires Counters(s) && Rounds(s) && Schedules(s)
    ensures Counters(ScheduleStep(s, repartition)) && Rounds(ScheduleStep(s, repartition))
  {
  }

  lemma ScheduleKeeps(c: Config, s: State, repartition: bool)
    requires Inv(c, s) && Schedules(s)
    ensures Inv(c, ScheduleStep(s, repartition))
  {
    hide Delivered, ItemTokens, LeadTokens, Counters, Rounds, ScheduleStep, Schedules;
    ScheduleDelivers(c, s, repartition);
    ScheduleItems(s, repartition);
    ScheduleLeads(c, s, repartition);
    ScheduleRounds(s, repartition);
  }

  predicate Graphs(s: State) {
    && (s.graph.GReady? ==> s.items1 > 0)
    && (s.graph.GHaveItem? ==> s.lead1 > 0)
    && (s.graph.GPopping? ==> s.second != [])
    && (s.graph.GAtFirst? || s.graph.GAtSecond? ==> s.schedulerArrivals >= s.graphArrivals)
  }

  lemma GraphTakes(s: State)
    requires Graphs(s)
    ensures var s' := GraphStep(s);
            && s'.producer == s.producer && s'.submitted == s.submitted && s'.taken0 == s.taken0 && s'.first == s.first
            && s'.taken1 + s'.second == s.taken1 + s.second
  {
    if s.graph.GPopping? {
      TakeFirst(s.taken1, s.second);
    }
  }

  lemma GraphDelivers(c: Config, s: State)
    requires Delivered(c, s) && Graphs(s)
    ensures Delivered(c, GraphStep(s))
  {
    var s' := GraphStep(s);
    GraphTakes(s);
    hide GraphStep, Graphs;
    assert s'.taken1 + s'.second == s.taken1 + s.second;
  }

  lemma GraphItems(c: Config, s: State)
    requires Inv(c, s) && Graphs(s)
    ensures ItemTokens(GraphStep(s))
  {
    hide Delivered;
  }

  lemma GraphLeads(c: Config, s: State)
    requires LeadTokens(c, s) && Counters(s) && Rounds(s) && Graphs(s)
    ensures LeadTokens(c, GraphStep(s))
  {
  }

  lemma GraphRounds(s: State)
    requires Counters(s) && Rounds(s) && Graphs(s)
    ensures Counters(GraphStep(s)) && Rounds(GraphStep(s))
  {
  }

  lemma GraphKeeps(c: Config, s: State)
    requires Inv(c, s) && Graphs(s)
    ensures Inv(c, GraphStep(s))
  {
    hide Delivered, ItemTokens, LeadTokens, Counters, Rounds, GraphStep, Graphs;
    GraphRounds(s);
    GraphItems(c, s);
    GraphLeads(c, s);
    GraphDelivers(c, s);
  }

  lemma StepKeeps(c: Config, s: State, step: Step, s': State)
    requires Inv(c, s) && Next(c, s, step, s')
    ensures Inv(c, s')
  {
    hide Delivered, ItemTokens, LeadTokens, Counters, Rounds, ScheduleStep, GraphStep, ProduceStep;
    match step
    case Produce => ProduceKeeps(c, s);
    case Schedule(repartition) => ScheduleKeeps(c, s, repartition);
    case Graph => GraphKeeps(c, s);
  }

  lemma InitialInv(c: Config)
    ensures Inv(c, Initial(c))
  {
  }

  /** `steps` is an execution from the initial state that ends in `s`. */
  ghost predicate Run(c: Config, steps: seq<Step>, s: State) {
    exists states: seq<State> :: Passes(c, steps, states) && states[|steps|] == s
  }

  /** The states an execution goes through. */
  ghost predicate Passes(c: Config, steps: seq<Step>, states: seq<State>) {
    && |states| == |steps| + 1 && states[0] == Initial(c)
    && forall i :: 0 <= i < |steps| ==> Next(c, states[i], steps[i], states[i + 1])
  }

  lemma LastStep(c: Config, steps: seq<Step>, s: State) returns (before: State)
    requires Run(c, steps, s) && steps != []
    ensures Run(c, steps[..|steps| - 1], before) && Next(c, before, steps[|steps| - 1], s)
  {
    hide Next;
    var n := |steps| - 1;
    var states :| Passes(c, steps, states) && states[|steps|] == s;
    before := states[n];
    assert Next(c, states[n], steps[n], states[n + 1]);
    assert Passes(c, steps[..n], states[..n + 1]);
  }

  lemma {:induction false} RunInv(c: Config, steps: seq<Step>, s: State)
    requires Run(c, steps, s)
    ensures Inv(c, s)
  {
    hide Inv, Next;
    if steps == [] {
      InitialInv(c);
    } else {
      var n := |steps| - 1;
      var before := LastStep(c, steps, s);
      RunInv(c, steps[..n], before);
      StepKeeps(c, before, steps[n], s);
    }
  }

  // ---- over all executions ----

  /** Both heads deliver prefixes of the submitted sequence, and a head that was let through always
      finds an item: `pop` never meets an empty buffer. */
  lemma HeadsDeliverTheStream(c: Config, steps: seq<Step>, s: State)
    requires Run(c, steps, s)
    ensures s.taken0 <= c.stream && s.taken1 <= c.stream
    ensures s.scheduler.HaveLead? ==> s.first != []
    ensures s.graph.GPopping? ==> s.second != []
  {
    RunInv(c, steps, s);
    InvAllowsPops(c, s);
    hide LeadTokens, Rounds, ItemTokens, Counters;
    assert s.taken0 <= s.taken0 + s.first;
    assert s.taken1 <= s.taken1 + s.second;
  }

  /** Neither head gets further ahead of the other than its lead allows, whatever `free` was called in
      between; and a lead semaphore holds at most both leads, and one more only while a handshake is
      being set up. */
  lemma LeadsAreLimited(c: Config, steps: seq<Step>, s: State)
    requires Run(c, steps, s)
    ensures -(c.ahead1 as int) <= |s.taken0| - |s.taken1| <= c.ahead0
    ensures s.lead0 <= c.ahead0 + c.ahead1
    ensures s.lead1 <= c.ahead0 + c.ahead1 + s.handshakes - s.parks
    ensures s.handshakes - s.parks <= 1
    ensures s.handshakes > s.parks ==> Asking(s)
  {
    RunInv(c, steps, s);
    hide Delivered, ItemTokens, Counters;
  }

  /** With a lead of at least one in sum the heads never keep each other from going on: if both have an
      item, one of them is let through. */
  lemma HeadsNeverBlockEachOther(c: Config, steps: seq<Step>, s: State)
    requires Run(c, steps, s) && c.ahead0 + c.ahead1 >= 1
    requires s.scheduler.HaveItem? && s.graph.GHaveItem?
    ensures s.lead0 > 0 || s.lead1 > 0
  {
    RunInv(c, steps, s);
    hide Delivered, ItemTokens, Counters;
  }

  /** While the scheduling thread copies the graph, the graph thread stands between the two barriers and
      has processed a prefix of the submitted requests that ends near the last one dispatched. */
  lemma CopyIsStable(c: Config, steps: seq<Step>, s: State)
    requires Run(c, steps, s) && s.scheduler.Copying?
    ensures s.graph.GAtFirst? || s.graph.Between? || s.graph.GAtSecond?
    ensures s.processed == |s.taken1| && s.taken1 <= c.stream
    ensures s.dispatched - 1 <= s.processed <= s.dispatched + c.ahead1
  {
    RunInv(c, steps, s);
    HeadsDeliverTheStream(c, steps, s);
    hide Delivered, ItemTokens;
  }

  /** While the graph is copied no other thread changes what has been processed. */
  lemma NothingMovesDuringCopy(c: Config, steps: seq<Step>, s: State, step: Step, s': State)
    requires Run(c, steps, s) && s.scheduler.Copying? && Next(c, s, step, s') && s'.scheduler.Copying?
    ensures s'.processed == s.processed && s'.taken1 == s.taken1
  {
    CopyIsStable(c, steps, s);
  }

  /** After a handshake the extra tokens are used up: both semaphores of head 1 hold what they would
      hold if no handshake had ever happened. */
  lemma TokensAreRestored(c: Config, steps: seq<Step>, s: State)
    requires Run(c, steps, s) && !InHandshake(s)
    ensures s.parks == s.handshakes && !s.note
    ensures s.graph.GReady? && s.producer.Idle? ==> s.items1 == |s.second|
    ensures s.graph.GReady? && s.scheduler.Ready? ==> s.lead1 + |s.taken1| == c.ahead1 + |s.taken0|
  {
    RunInv(c, steps, s);
    assert |s.taken1| + |s.second| == Pushed1(s) by { hide ItemTokens, LeadTokens, Counters, Rounds; }
    hide Delivered;
  }

  // ---- the handshake completes ----

  function SchedulerLeft(at: SchedulerAt): nat {
    match at
    case Noted => 6
    case FreedItem => 5
    case FreedLead => 4
    case AtFirst => 3
    case Copying => 2
    case AtSecond => 1
    case _ => 0
  }

  /** Steps of the graph thread for the requests it has to process before it complies. */
  function Backlog(dispatched: int, processed: int): nat {
    if dispatched - 1 <= processed then 0 else 6 * (dispatched - 1 - processed)
  }

  /** Steps of the graph thread until its second arrival at the barrier. */
  function GraphLeft(at: GraphAt, asked: bool, dispatched: int, processed: int): nat {
    if asked then
      match at
      case GAtSecond => 8 + Backlog(dispatched, processed)
      case GReady => 7 + Backlog(dispatched, processed)
      case GHaveItem => 6 + Backlog(dispatched, processed)
      case GHaveLead => 5 + Backlog(dispatched, processed)
      case GPopping => 10 + Backlog(dispatched, processed + 1)
      case GPopped => 9 + Backlog(dispatched, processed + 1)
      case GPosted => 8 + Backlog(dispatched, processed + 1)
      case _ => 0
    else
      match at
      case Clearing => 4
      case Arriving => 3
      case GAtFirst => 2
      case Between => 1
      case _ => 0
  }

  function ComplianceLeft(s: State): nat {
    GraphLeft(s.graph, s.parks < s.handshakes, s.dispatched, s.processed)
  }

  function Distance(s: State): nat {
    SchedulerLeft(s.scheduler) + ComplianceLeft(s)
  }

  lemma ProduceNeutral(c: Config, s: State)
    requires s.submitted < |c.stream|
    ensures Distance(ProduceStep(c, s)) == Distance(s)
  {
    hide SchedulerLeft, GraphLeft;
  }

  lemma ScheduleAdvances(s: State, repartition: bool)
    requires Rounds(s) && InHandshake(s) && Schedules(s)
    ensures Distance(ScheduleStep(s, repartition)) < Distance(s)
  {
    hide GraphLeft;
  }

  lemma GraphAdvances(s: State)
    requires Rounds(s) && InHandshake(s) && Graphs(s)
    ensures Distance(GraphStep(s)) <= Distance(s)
    ensures ComplianceLeft(s) > 0 ==> Distance(GraphStep(s)) < Distance(s)
  {
    hide SchedulerLeft;
    match s.graph
    case GPosted =>
    case GHaveLead =>
    case _ =>
  }

  /** During a handshake every step of the scheduling thread, and every step of the graph thread until
      its second arrival, brings the end closer, and no step moves it away. */
  lemma HandshakeAdvances(c: Config, steps: seq<Step>, s: State, step: Step, s': State)
    requires Run(c, steps, s) && InHandshake(s) && Next(c, s, step, s')
    ensures Distance(s') <= Distance(s)
    ensures step.Schedule? ==> Distance(s') < Distance(s)
    ensures step.Graph? && ComplianceLeft(s) > 0 ==> Distance(s') < Distance(s)
  {
    RunInv(c, steps, s);
    hide Delivered, ItemTokens, LeadTokens, Counters, Rounds, ProduceStep, ScheduleStep, GraphStep,
      Distance, ComplianceLeft;
    match step
    case Produce => ProduceNeutral(c, s);
    case Schedule(repartition) => ScheduleAdvances(s, repartition);
    case Graph => GraphAdvances(s);
  }

  /** The handshake cannot deadlock: at every moment of it the scheduling thread or the graph thread can
      take a step that brings the end closer. */
  lemma HandshakeNeverStuck(c: Config, steps: seq<Step>, s: State)
    requires Run(c, steps, s) && InHandshake(s)
    ensures Enabled(c, s, Schedule(true)) || (Enabled(c, s, Graph) && ComplianceLeft(s) > 0)
  {
    RunInv(c, steps, s);
    hide Delivered;
  }
}
