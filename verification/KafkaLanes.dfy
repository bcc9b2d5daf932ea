/** Partition lanes of the Kafka source: one task drains each partition's queue, and a condition
    variable caps how many records are handled at once. */
module KafkaLanes {
  import opened KafkaTypes
  import opened Runs

  datatype Record = Record(tp: TopicPartition, offset: int)

  datatype Outcome = Returned | Raised | Cancelled

  /** Where a lane's task is suspended. */
  datatype Pc =
    | Created
    | Acquiring(record: Record)
    | Parked(record: Record, limit: int)
    | Handling(record: Record)
    | Releasing(record: Record, outcome: Outcome)
    | Dispatched(outcome: Outcome)
    | Ended
    | Lost   // cancelled before its first step: its `finally` block never runs

  /** A lane and the deque it was created with; the queue table refers to the same deque. */
  datatype Lane = Lane(tp: TopicPartition, queue: seq<Record>, pc: Pc)

  datatype State = State(
    lanes: seq<Lane>,
    queues: map<TopicPartition, nat>,
    tasks: map<TopicPartition, nat>,
    paused: set<TopicPartition>,
    active: int,
    stopped: bool,
    prefetch: nat)

  function Initial(prefetch: nat): State {
    State([], map[], map[], {}, 0, false, prefetch)
  }

  datatype Event =
    | Arrive(record: Record, admitted: bool)
    | LaneStart(lane: nat)
    | TryAcquire(lane: nat, limit: int)
    | LimitRaises(lane: nat)
    | HandlerEnd(lane: nat, outcome: Outcome)
    | Release(lane: nat)
    | LaneContinue(lane: nat)
    | CancelLane(tp: TopicPartition)
    | Stop
    | NotifyAll

  predicate Enabled(s: State, e: Event) {
    match e
    case Arrive(r, _) => r.tp in s.queues ==> s.queues[r.tp] < |s.lanes|
    case LaneStart(l) => l < |s.lanes| && s.lanes[l].pc.Created?
    case TryAcquire(l, _) => l < |s.lanes| && s.lanes[l].pc.Acquiring?
    case LimitRaises(l) => l < |s.lanes| && s.lanes[l].pc.Acquiring? && !s.stopped
    case HandlerEnd(l, _) => l < |s.lanes| && s.lanes[l].pc.Handling?
    case Release(l) => l < |s.lanes| && s.lanes[l].pc.Releasing?
    case LaneContinue(l) => l < |s.lanes| && s.lanes[l].pc.Dispatched?
    case CancelLane(tp) => tp in s.tasks && s.tasks[tp] < |s.lanes|
    case Stop => true
    case NotifyAll => true
  }

  function WithPc(s: State, l: nat, pc: Pc): State
    requires l < |s.lanes|
  {
    s.(lanes := s.lanes[l := s.lanes[l].(pc := pc)])
  }

  /** Every lane waiting on the condition variable gets to look again. */
  function Woken(lanes: seq<Lane>): (r: seq<Lane>)
    ensures |r| == |lanes|
  {
    seq(|lanes|, i requires 0 <= i < |lanes| =>
      if lanes[i].pc.Parked? then lanes[i].(pc := Acquiring(lanes[i].pc.record)) else lanes[i])
  }

  /** The lane's `finally` block. */
  function EndLane(s: State, l: nat): State
    requires l < |s.lanes|
  {
    var tp := s.lanes[l].tp;
    s.(lanes := s.lanes[l := Lane(tp, [], Ended)], tasks := s.tasks - {tp}, queues := s.queues - {tp},
    paused := s.paused - {tp})
  }

  /** The top of the lane's loop: take the next record, or leave. */
  function LoopTop(s: State, l: nat): State
    requires l < |s.lanes|
  {
    var lane := s.lanes[l];
    if lane.queue != [] && !s.stopped
    then s.(lanes := s.lanes[l := Lane(lane.tp, lane.queue[1..], Acquiring(lane.queue[0]))])
    else EndLane(s, l)
  }

  /** Pause the partition at the transport once its queue is full. */
  function PauseIfFull(s: State, tp: TopicPartition): State
    requires tp in s.queues && s.queues[tp] < |s.lanes|
  {
    if |s.lanes[s.queues[tp]].queue| >= s.prefetch then s.(paused := s.paused + {tp}) else s
  }

  function Enqueue(s: State, r: Record): State
    requires r.tp in s.queues && s.queues[r.tp] < |s.lanes|
  {
    var l := s.queues[r.tp];
    s.(lanes := s.lanes[l := s.lanes[l].(queue := s.lanes[l].queue + [r])])
  }

  function OpenLane(s: State, r: Record): State {
    s.(lanes := s.lanes + [Lane(r.tp, [r], Created)],
    queues := s.queues[r.tp := |s.lanes|], tasks := s.tasks[r.tp := |s.lanes|])
  }

  function Append(s: State, r: Record): State
    requires r.tp in s.queues ==> s.queues[r.tp] < |s.lanes|
  {
    PauseIfFull(if r.tp in s.queues then Enqueue(s, r) else OpenLane(s, r), r.tp)
  }

  function Apply(s: State, e: Event): State
    requires Enabled(s, e)
  {
    match e
    case Arrive(r, admitted) => if s.stopped || !admitted then s else Append(s, r)
    case LaneStart(l) => LoopTop(s, l)
    case TryAcquire(l, limit) =>
      var r := s.lanes[l].pc.record;
      if s.stopped then WithPc(s, l, Dispatched(Returned))
      else if limit == 0 || s.active < limit then WithPc(s, l, Handling(r)).(active := s.active + 1)
      else WithPc(s, l, Parked(r, limit))
    case LimitRaises(l) => WithPc(s, l, Dispatched(Raised))
    case HandlerEnd(l, outcome) => WithPc(s, l, Releasing(s.lanes[l].pc.record, outcome))
    case Release(l) =>
      var t := WithPc(s, l, Dispatched(s.lanes[l].pc.outcome));
      t.(active := s.active - 1, lanes := Woken(t.lanes))
    case LaneContinue(l) =>
      if s.lanes[l].pc.outcome != Returned then EndLane(s, l)
      else
        var t := if s.lanes[l].queue == [] then s.(paused := s.paused - {s.lanes[l].tp}) else s;
        LoopTop(t, l)
    case CancelLane(tp) =>
      var l := s.tasks[tp];
      (match s.lanes[l].pc
       case Created => WithPc(s, l, Lost)
       case Acquiring(_) => WithPc(s, l, Dispatched(Cancelled))
       case Parked(_, _) => WithPc(s, l, Dispatched(Cancelled))
       case Dispatched(_) => WithPc(s, l, Dispatched(Cancelled))
       case _ => s)
    case Stop => s.(stopped := true)
    case NotifyAll => s.(lanes := Woken(s.lanes))
  }

  // ---------------------------------------------------------------------------
  // Invariant
  // ---------------------------------------------------------------------------

  predicate Owns(s: State, l: nat) {
    l < |s.lanes| &&
    var tp := s.lanes[l].tp;
    tp in s.queues && s.queues[tp] == l && tp in s.tasks && s.tasks[tp] == l
  }

  /** The queue and task tables hold the same lanes, each the owner of its partition, and no other lane is live. */
  ghost predicate Tables(s: State) {
    && s.queues == s.tasks
    && (forall tp <- s.queues :: s.queues[tp] < |s.lanes| && s.lanes[s.queues[tp]].tp == tp
                                 && !s.lanes[s.queues[tp]].pc.Ended?)
    && (forall l :: 0 <= l < |s.lanes| && !s.lanes[l].pc.Ended? ==> Owns(s, l))
    && s.paused <= s.queues.Keys
  }

  /** Lanes with a handler call in flight. */
  ghost function InFlight(s: State): set<nat> {
    set l: nat | l < |s.lanes| && (s.lanes[l].pc.Handling? || s.lanes[l].pc.Releasing?)
  }

  /** A lane waits only for a limit that is reached. */
  ghost predicate NoLostWakeup(s: State) {
    forall l :: 0 <= l < |s.lanes| && s.lanes[l].pc.Parked? ==> s.lanes[l].pc.limit != 0 && s.active >= s.lanes[l].pc.limit
  }

  ghost predicate Inv(s: State) {
    Tables(s) && s.active == |InFlight(s)| && NoLostWakeup(s)
  }

  predicate Permit(pc: Pc) {
    pc.Handling? || pc.Releasing?
  }

  /** Moving one live lane to another suspension point without a permit changing hands. */
  lemma MoveKeepsInv(s: State, l: nat, pc: Pc)
    requires Inv(s) && l < |s.lanes| && !s.lanes[l].pc.Ended? && !pc.Ended?
    requires Permit(s.lanes[l].pc) == Permit(pc)
    requires pc.Parked? ==> pc.limit != 0 && s.active >= pc.limit
    ensures Inv(WithPc(s, l, pc))
  {
    assert InFlight(WithPc(s, l, pc)) == InFlight(s);
  }

  lemma AdmitKeepsInv(s: State, l: nat)
    requires Inv(s) && l < |s.lanes| && s.lanes[l].pc.Acquiring?
    ensures Inv(WithPc(s, l, Handling(s.lanes[l].pc.record)).(active := s.active + 1))
  {
    var t := WithPc(s, l, Handling(s.lanes[l].pc.record)).(active := s.active + 1);
    assert InFlight(t) == InFlight(s) + {l};
  }

  lemma WakeKeepsInv(s: State)
    requires Tables(s) && s.active == |InFlight(s)|
    ensures Inv(s.(lanes := Woken(s.lanes)))
  {
    assert InFlight(s.(lanes := Woken(s.lanes))) == InFlight(s);
  }

  lemma ReleaseKeepsInv(s: State, l: nat)
    requires Inv(s) && l < |s.lanes| && s.lanes[l].pc.Releasing?
    ensures Inv(Apply(s, Release(l)))
  {
    var t := WithPc(s, l, Dispatched(s.lanes[l].pc.outcome)).(active := s.active - 1);
    assert InFlight(t) == InFlight(s) - {l};
    WakeKeepsInv(t);
  }

  lemma EndKeepsInv(s: State, l: nat)
    requires Inv(s) && l < |s.lanes| && (s.lanes[l].pc.Created? || s.lanes[l].pc.Dispatched?)
    ensures Inv(EndLane(s, l))
  {
    assert InFlight(EndLane(s, l)) == InFlight(s);
    assert forall k :: 0 <= k < |s.lanes| && k != l && !s.lanes[k].pc.Ended? ==> Owns(s, k);
  }

  lemma LoopKeepsInv(s: State, l: nat)
    requires Inv(s) && l < |s.lanes| && (s.lanes[l].pc.Created? || s.lanes[l].pc.Dispatched?)
    ensures Inv(LoopTop(s, l))
  {
    EndKeepsInv(s, l);
    assert InFlight(LoopTop(s, l)) == InFlight(s);
  }

  lemma EnqueueKeepsInv(s: State, r: Record)
    requires Inv(s) && r.tp in s.queues
    ensures Inv(Enqueue(s, r))
  {
    assert InFlight(Enqueue(s, r)) == InFlight(s);
  }

  lemma OpenKeepsInv(s: State, r: Record)
    requires Inv(s) && r.tp !in s.queues
    ensures Inv(OpenLane(s, r))
  {
    var t := OpenLane(s, r);
    assert InFlight(t) == InFlight(s);
    assert forall k :: 0 <= k < |s.lanes| ==> t.lanes[k] == s.lanes[k];
    assert forall k :: 0 <= k < |s.lanes| && !s.lanes[k].pc.Ended? ==> Owns(s, k);
  }

  lemma AppendKeepsInv(s: State, r: Record)
    requires Inv(s)
    ensures Inv(Append(s, r))
  {
    if r.tp in s.queues {
      EnqueueKeepsInv(s, r);
    } else {
      OpenKeepsInv(s, r);
    }
    var t := if r.tp in s.queues then Enqueue(s, r) else OpenLane(s, r);
    assert InFlight(PauseIfFull(t, r.tp)) == InFlight(t);
  }

  lemma {:induction false} StepKeepsInv(s: State, e: Event)
    requires Inv(s) && Enabled(s, e)
    ensures Inv(Apply(s, e))
  {
    match e
    case Arrive(r, admitted) => AppendKeepsInv(s, r);
    case LaneStart(l) => LoopKeepsInv(s, l);
    case TryAcquire(l, limit) =>
      if s.stopped {
        MoveKeepsInv(s, l, Dispatched(Returned));
      } else if limit == 0 || s.active < limit {
        AdmitKeepsInv(s, l);
      } else {
        MoveKeepsInv(s, l, Parked(s.lanes[l].pc.record, limit));
      }
    case LimitRaises(l) => MoveKeepsInv(s, l, Dispatched(Raised));
    case HandlerEnd(l, outcome) => MoveKeepsInv(s, l, Releasing(s.lanes[l].pc.record, outcome));
    case Release(l) => ReleaseKeepsInv(s, l);
    case LaneContinue(l) => ContinueKeepsInv(s, l);
    case CancelLane(tp) =>
      var l := s.tasks[tp];
      if s.lanes[l].pc.Created? {
        MoveKeepsInv(s, l, Lost);
      } else if s.lanes[l].pc.Acquiring? || s.lanes[l].pc.Parked? || s.lanes[l].pc.Dispatched? {
        MoveKeepsInv(s, l, Dispatched(Cancelled));
      }
    case Stop => assert InFlight(Apply(s, e)) == InFlight(s);
    case NotifyAll => WakeKeepsInv(s);
  }

  lemma ContinueKeepsInv(s: State, l: nat)
    requires Inv(s) && l < |s.lanes| && s.lanes[l].pc.Dispatched?
    ensures Inv(Apply(s, LaneContinue(l)))
  {
    EndKeepsInv(s, l);
    LoopKeepsInv(s, l);
    var t := s.(paused := s.paused - {s.lanes[l].tp});
    assert InFlight(t) == InFlight(s);
    LoopKeepsInv(t, l);
  }

  // ---------------------------------------------------------------------------
  // Runs
  // ---------------------------------------------------------------------------

  /** The state after a run.  An event whose guard does not hold cannot happen and changes nothing. */
  ghost function StateOf(prefetch: nat, run: Run<Event>): State {
    if run.Start? then Initial(prefetch)
    else
      var s := StateOf(prefetch, run.before);
      if Enabled(s, run.event) then Apply(s, run.event) else s
  }

  lemma {:induction false} InvHolds(prefetch: nat, run: Run<Event>)
    ensures Inv(StateOf(prefetch, run))
  {
    if run.Start? {
      assert InFlight(Initial(prefetch)) == {};
    } else {
      InvHolds(prefetch, run.before);
      if Enabled(StateOf(prefetch, run.before), run.event) {
        StepKeepsInv(StateOf(prefetch, run.before), run.event);
      }
    }
  }

  /** The record, if any, that the event puts into a queue. */
  function ArrivesNow(s: State, e: Event, tp: TopicPartition): seq<Record> {
    if e.Arrive? && Enabled(s, e) && e.admitted && !s.stopped && e.record.tp == tp then [e.record] else []
  }

  /** The record, if any, that the event takes out of its queue to dispatch it. */
  function TakesNow(s: State, e: Event, tp: TopicPartition): seq<Record> {
    if (e.LaneStart? || e.LaneContinue?) && Enabled(s, e) && s.lanes[e.lane].tp == tp && s.lanes[e.lane].queue != []
       && !s.stopped && (e.LaneContinue? ==> s.lanes[e.lane].pc.outcome == Returned)
    then [s.lanes[e.lane].queue[0]]
    else []
  }

  ghost function Arrived(prefetch: nat, run: Run<Event>, tp: TopicPartition): seq<Record> {
    if run.Start? then []
    else Arrived(prefetch, run.before, tp) + ArrivesNow(StateOf(prefetch, run.before), run.event, tp)
  }

  ghost function Taken(prefetch: nat, run: Run<Event>, tp: TopicPartition): seq<Record> {
    if run.Start? then []
    else Taken(prefetch, run.before, tp) + TakesNow(StateOf(prefetch, run.before), run.event, tp)
  }

  predicate Dispatching(pc: Pc) {
    pc.Acquiring? || pc.Parked? || pc.Handling? || pc.Releasing? || pc.Dispatched?
  }

  /** At most one record of a partition is being dispatched. */
  lemma OneDispatchPerPartition(prefetch: nat, run: Run<Event>, l: nat, k: nat)
    requires var s := StateOf(prefetch, run);
             l < |s.lanes| && k < |s.lanes| && Dispatching(s.lanes[l].pc) && Dispatching(s.lanes[k].pc)
             && s.lanes[l].tp == s.lanes[k].tp
    ensures l == k
  {
    InvHolds(prefetch, run);
    assert Owns(StateOf(prefetch, run), l) && Owns(StateOf(prefetch, run), k);
  }

  /** The active count is the number of handler calls in flight, and an admission stays within the
      limit it sampled. */
  lemma AdmissionWithinLimit(prefetch: nat, run: Run<Event>)
    requires run.Then? && run.event.TryAcquire? && Enabled(StateOf(prefetch, run.before), run.event)
    requires StateOf(prefetch, run).lanes[run.event.lane].pc.Handling?
    ensures var s := StateOf(prefetch, run);
            s.active == |InFlight(s)| && (run.event.limit == 0 || |InFlight(s)| <= run.event.limit)
  {
    InvHolds(prefetch, run);
  }

  /** A lane asleep on the condition variable would not be admitted under the limit it sampled. */
  lemma SleepersAreBlocked(prefetch: nat, run: Run<Event>, l: nat)
    requires var s := StateOf(prefetch, run); l < |s.lanes| && s.lanes[l].pc.Parked?
    ensures var s := StateOf(prefetch, run); var limit := s.lanes[l].pc.limit;
            limit != 0 && |InFlight(s)| >= limit
  {
    InvHolds(prefetch, run);
  }

  // ---------------------------------------------------------------------------
  // Stranded records
  // ---------------------------------------------------------------------------

  predicate Live(pc: Pc) {
    pc.Created? || Dispatching(pc)
  }

  /** The partition's queue is in the table and no live lane will ever drain it. */
  ghost predicate Stranded(s: State, tp: TopicPartition) {
    tp in s.queues && forall l :: 0 <= l < |s.lanes| && s.lanes[l].tp == tp ==> !Live(s.lanes[l].pc)
  }

  /** The newest event cancels a lane that has not taken its first step. */
  ghost predicate LosesLane(prefetch: nat, run: Run<Event>, tp: TopicPartition) {
    run.Then? && run.event == CancelLane(tp) &&
    var s := StateOf(prefetch, run.before);
    Enabled(s, run.event) && s.lanes[s.tasks[tp]].pc.Created?
  }

  ghost predicate LaneLost(prefetch: nat, run: Run<Event>, tp: TopicPartition) {
    run.Then? && (LaneLost(prefetch, run.before, tp) || LosesLane(prefetch, run, tp))
  }

  /** The partition's lane in the table is lost. */
  ghost predicate OwnerLost(s: State, tp: TopicPartition) {
    tp in s.queues && s.queues[tp] < |s.lanes| && s.lanes[s.queues[tp]].pc.Lost?
  }

  /** A lost lane keeps its partition and its records; later records only queue up behind them.
      Only the cancellation of an unstarted lane loses one. */
  ghost predicate LossFlow(s: State, e: Event, tp: TopicPartition, t: State) {
    && (OwnerLost(s, tp) ==>
      && OwnerLost(t, tp)
      && Queue(t, tp) == Queue(s, tp) + ArrivesNow(s, e, tp)
      && TakesNow(s, e, tp) == [])
    && (!OwnerLost(s, tp) && OwnerLost(t, tp) ==>
      e == CancelLane(tp) && tp in s.tasks && s.tasks[tp] < |s.lanes| && s.lanes[s.tasks[tp]].pc.Created?)
  }

  lemma {:induction false} StartLoss(s: State, e: Event, tp: TopicPartition)
    requires Inv(s) && Enabled(s, e) && e.LaneStart?
    ensures LossFlow(s, e, tp, Apply(s, e))
  {
    assert Owns(s, e.lane);
  }

  lemma {:induction false} ContinueLoss(s: State, e: Event, tp: TopicPartition)
    requires Inv(s) && Enabled(s, e) && e.LaneContinue?
    ensures LossFlow(s, e, tp, Apply(s, e))
  {
    assert Owns(s, e.lane);
  }

  lemma {:induction false} ArriveLoss(s: State, e: Event, tp: TopicPartition)
    requires Inv(s) && Enabled(s, e) && e.Arrive?
    ensures LossFlow(s, e, tp, Apply(s, e))
  {
  }

  lemma {:induction false} OtherLoss(s: State, e: Event, tp: TopicPartition)
    requires Inv(s) && Enabled(s, e) && !e.LaneStart? && !e.LaneContinue? && !e.Arrive?
    ensures LossFlow(s, e, tp, Apply(s, e))
  {
    assert Queue(Apply(s, e), tp) == Queue(s, tp) && ArrivesNow(s, e, tp) == TakesNow(s, e, tp) == [];
  }

  lemma {:induction false} LossStep(s: State, e: Event, tp: TopicPartition)
    requires Inv(s) && Enabled(s, e)
    ensures LossFlow(s, e, tp, Apply(s, e))
  {
    hide Apply, Enabled, Inv, LossFlow;
    if e.LaneStart? {
      StartLoss(s, e, tp);
    } else if e.LaneContinue? {
      ContinueLoss(s, e, tp);
    } else if e.Arrive? {
      ArriveLoss(s, e, tp);
    } else {
      OtherLoss(s, e, tp);
    }
  }

  lemma {:induction false} LosingLosesOwner(s: State, e: Event, tp: TopicPartition)
    requires Inv(s) && Enabled(s, e)
    ensures e == CancelLane(tp) && s.lanes[s.tasks[tp]].pc.Created? ==> OwnerLost(Apply(s, e), tp)
  {
  }

  lemma {:induction false} OwnerLostIff(prefetch: nat, run: Run<Event>, tp: TopicPartition)
    ensures OwnerLost(StateOf(prefetch, run), tp) <==> LaneLost(prefetch, run, tp)
  {
    if run.Then? {
      OwnerLostIff(prefetch, run.before, tp);
      InvHolds(prefetch, run.before);
      var s, e := StateOf(prefetch, run.before), run.event;
      if Enabled(s, e) {
        LossStep(s, e, tp);
        LosingLosesOwner(s, e, tp);
      }
    }
  }

  /** A queue in the table always has a live lane, except exactly when a cancellation caught the
      partition's lane before its first step. */
  lemma StrandedIffCancelledBeforeStart(prefetch: nat, run: Run<Event>, tp: TopicPartition)
    ensures Stranded(StateOf(prefetch, run), tp) <==> LaneLost(prefetch, run, tp)
  {
    var s := StateOf(prefetch, run);
    InvHolds(prefetch, run);
    OwnerLostIff(prefetch, run, tp);
    if tp in s.queues {
      var l := s.queues[tp];
      assert s.lanes[l].tp == tp;
      if s.lanes[l].pc.Lost? {
        assert forall k :: 0 <= k < |s.lanes| && s.lanes[k].tp == tp && !s.lanes[k].pc.Ended? ==> Owns(s, k);
      }
    }
  }

  /** From then on nothing of the partition is dispatched any more: every later record stays queued. */
  lemma {:induction false} StrandedForever(prefetch: nat, later: Run<Event>, earlier: Run<Event>, tp: TopicPartition)
    requires Extends(later, earlier) && LaneLost(prefetch, earlier, tp)
    ensures Taken(prefetch, later, tp) == Taken(prefetch, earlier, tp)
    ensures OwnerLost(StateOf(prefetch, later), tp)
    ensures var before, after := Arrived(prefetch, earlier, tp), Arrived(prefetch, later, tp);
            |before| <= |after| &&
            Queue(StateOf(prefetch, later), tp) == Queue(StateOf(prefetch, earlier), tp) + after[|before|..]
  {
    hide Apply, Enabled;
    OwnerLostIff(prefetch, earlier, tp);
    if later != earlier {
      StrandedForever(prefetch, later.before, earlier, tp);
      InvHolds(prefetch, later.before);
      var s := StateOf(prefetch, later.before);
      if Enabled(s, later.event) {
        LossStep(s, later.event, tp);
      }
    }
  }

  /** A record, a revocation before the lane's first step, and a record after reassignment: both
      records sit in the table, and no lane of the partition is alive. */
  lemma RevokeBeforeFirstStepStrands(first: Record, second: Record)
    requires first.tp == second.tp
    ensures var run := Then(Then(Then(Start, Arrive(first, true)), CancelLane(first.tp)), Arrive(second, true));
            var s := StateOf(1, run);
            Queue(s, first.tp) == [first, second] && Stranded(s, first.tp)
  {
    var one := Then(Start, Arrive(first, true));
    var two := Then(one, CancelLane(first.tp));
    assert StateOf(1, one).lanes == [Lane(first.tp, [first], Created)];
    assert StateOf(1, two).lanes == [Lane(first.tp, [first], Lost)];
  }

  // ---------------------------------------------------------------------------
  // Order
  // ---------------------------------------------------------------------------

  function Queue(s: State, tp: TopicPartition): seq<Record> {
    if tp in s.queues && s.queues[tp] < |s.lanes| then s.lanes[s.queues[tp]].queue else []
  }

  /** The event ends a lane that has records queued: after a stop, a failure or a cancellation. */
  predicate Discards(s: State, e: Event, tp: TopicPartition) {
    (e.LaneStart? || e.LaneContinue?) && Enabled(s, e) && s.lanes[e.lane].tp == tp &&
    s.lanes[e.lane].queue != [] &&
    (s.stopped || (e.LaneContinue? && s.lanes[e.lane].pc.outcome != Returned))
  }

  /** What is taken comes from the front, what arrives goes to the back, and only an early end drops records. */
  ghost predicate Flow(s: State, e: Event, tp: TopicPartition, t: State) {
    var arrives, takes := ArrivesNow(s, e, tp), TakesNow(s, e, tp);
    || takes + Queue(t, tp) == Queue(s, tp) + arrives
    || (Discards(s, e, tp) && takes == [] && arrives == [] && Queue(t, tp) == [])
  }

  lemma {:induction false} StartFlow(s: State, e: Event, tp: TopicPartition)
    requires Inv(s) && Enabled(s, e) && e.LaneStart?
    ensures Flow(s, e, tp, Apply(s, e))
  {
    assert Owns(s, e.lane);
  }

  lemma {:induction false} ContinueFlow(s: State, e: Event, tp: TopicPartition)
    requires Inv(s) && Enabled(s, e) && e.LaneContinue?
    ensures Flow(s, e, tp, Apply(s, e))
  {
    assert Owns(s, e.lane);
  }

  lemma {:induction false} ArriveFlow(s: State, e: Event, tp: TopicPartition)
    requires Inv(s) && Enabled(s, e) && e.Arrive?
    ensures Flow(s, e, tp, Apply(s, e))
  {
  }

  lemma {:induction false} OtherFlow(s: State, e: Event, tp: TopicPartition)
    requires Inv(s) && Enabled(s, e) && !e.LaneStart? && !e.LaneContinue? && !e.Arrive?
    ensures Flow(s, e, tp, Apply(s, e))
  {
    assert Queue(Apply(s, e), tp) == Queue(s, tp);
  }

  lemma {:induction false} FlowStep(s: State, e: Event, tp: TopicPartition)
    requires Inv(s) && Enabled(s, e)
    ensures Flow(s, e, tp, Apply(s, e))
  {
    hide Apply, Enabled, Flow, Inv;
    if e.LaneStart? {
      StartFlow(s, e, tp);
    } else if e.LaneContinue? {
      ContinueFlow(s, e, tp);
    } else if e.Arrive? {
      ArriveFlow(s, e, tp);
    } else {
      OtherFlow(s, e, tp);
    }
  }

  /** `xs` is `ys` with some elements left out. */
  ghost predicate Subsequence(xs: seq<Record>, ys: seq<Record>) {
    xs == [] ||
    (ys != [] &&
     var lastY := |ys| - 1;
     (Subsequence(xs, ys[..lastY]) ||
      (xs[|xs| - 1] == ys[lastY] && Subsequence(xs[..|xs| - 1], ys[..lastY]))))
  }

  lemma {:induction false} SubsequenceOfLonger(xs: seq<Record>, ys: seq<Record>, more: seq<Record>)
    requires Subsequence(xs, ys)
    ensures Subsequence(xs, ys + more)
  {
    if more == [] {
      assert ys + more == ys;
    } else {
      SubsequenceOfLonger(xs, ys, more[..|more| - 1]);
      assert (ys + more)[..|ys + more| - 1] == ys + more[..|more| - 1];
    }
  }

  lemma SubsequenceGrows(xs: seq<Record>, ys: seq<Record>, last: seq<Record>)
    requires Subsequence(xs, ys) && |last| <= 1
    ensures Subsequence(xs + last, ys + last)
  {
    if last == [] {
      assert xs + last == xs && ys + last == ys;
    } else {
      assert (xs + last)[..|xs|] == xs && (ys + last)[..|ys|] == ys;
    }
  }

  /** The queue is the newest part of what arrived, and what was dispatched is taken in arrival order
      from the rest. */
  ghost predicate InOrder(arrived: seq<Record>, taken: seq<Record>, queue: seq<Record>) {
    |queue| <= |arrived| && arrived[|arrived| - |queue|..] == queue
    && Subsequence(taken, arrived[..|arrived| - |queue|])
  }

  /** The same of the newest event of a run, whether or not it could happen. */
  lemma RunFlow(prefetch: nat, run: Run<Event>, tp: TopicPartition)
    requires run.Then?
    ensures Flow(StateOf(prefetch, run.before), run.event, tp, StateOf(prefetch, run))
    ensures |TakesNow(StateOf(prefetch, run.before), run.event, tp)| <= 1
  {
    hide Apply, Enabled, Inv, Queue, Discards;
    InvHolds(prefetch, run.before);
    var s, e := StateOf(prefetch, run.before), run.event;
    if Enabled(s, e) {
      FlowStep(s, e, tp);
    } else {
      assert [] + Queue(s, tp) == Queue(s, tp) + [];
    }
  }

  lemma {:induction false} DispatchFollowsArrival(prefetch: nat, run: Run<Event>, tp: TopicPartition)
    ensures InOrder(Arrived(prefetch, run, tp), Taken(prefetch, run, tp), Queue(StateOf(prefetch, run), tp))
  {
    if run.Start? {
      assert Queue(Initial(prefetch), tp) == [];
    } else {
      hide Queue, Discards, ArrivesNow, TakesNow, StateOf, InOrder;
      DispatchFollowsArrival(prefetch, run.before, tp);
      RunFlow(prefetch, run, tp);
      var s, e := StateOf(prefetch, run.before), run.event;
      InOrderStep(Arrived(prefetch, run.before, tp), Taken(prefetch, run.before, tp), Queue(s, tp),
                  ArrivesNow(s, e, tp), TakesNow(s, e, tp), Queue(StateOf(prefetch, run), tp));
    }
  }

  lemma InOrderStep(arrived: seq<Record>, taken: seq<Record>, queue: seq<Record>,
                    arrives: seq<Record>, takes: seq<Record>, queue': seq<Record>)
    requires InOrder(arrived, taken, queue) && |takes| <= 1
    requires takes + queue' == queue + arrives || (takes == [] && arrives == [] && queue' == [])
    ensures InOrder(arrived + arrives, taken + takes, queue')
  {
    var past := arrived[..|arrived| - |queue|];
    var arrived' := arrived + arrives;
    assert arrived == past + queue;
    if takes + queue' == queue + arrives {
      assert arrived' == past + takes + queue' by {
        assert arrived' == past + (queue + arrives) && past + takes + queue' == past + (takes + queue');
      }
      assert arrived'[..|arrived'| - |queue'|] == past + takes;
      SubsequenceGrows(taken, past, takes);
    } else {
      assert arrived' == arrived && taken + takes == taken && arrived'[..|arrived'|] == past + queue;
      SubsequenceOfLonger(taken, past, queue);
    }
  }

  ghost predicate NeverDiscards(prefetch: nat, run: Run<Event>, tp: TopicPartition) {
    run.Then? ==> NeverDiscards(prefetch, run.before, tp) && !Discards(StateOf(prefetch, run.before), run.event, tp)
  }

  lemma MovesKeep(arrived: seq<Record>, taken: seq<Record>, queue: seq<Record>,
                  arrives: seq<Record>, takes: seq<Record>, queue': seq<Record>)
    requires taken + queue == arrived && takes + queue' == queue + arrives
    ensures taken + takes + queue' == arrived + arrives
  {
    assert taken + takes + queue' == taken + (takes + queue');
    assert taken + (queue + arrives) == taken + queue + arrives;
  }

  /** While no lane of the partition ends with records queued, nothing is dropped:
      dispatched and queued records together are exactly the arrivals, in order. */
  lemma {:induction false} NothingDropped(prefetch: nat, run: Run<Event>, tp: TopicPartition)
    requires NeverDiscards(prefetch, run, tp)
    ensures Taken(prefetch, run, tp) + Queue(StateOf(prefetch, run), tp) == Arrived(prefetch, run, tp)
  {
    if run.Start? {
      assert Queue(Initial(prefetch), tp) == [];
    } else {
      hide Queue, Discards, ArrivesNow, TakesNow, StateOf;
      NothingDropped(prefetch, run.before, tp);
      RunFlow(prefetch, run, tp);
      var s, e := StateOf(prefetch, run.before), run.event;
      MovesKeep(Arrived(prefetch, run.before, tp), Taken(prefetch, run.before, tp), Queue(s, tp),
                ArrivesNow(s, e, tp), TakesNow(s, e, tp), Queue(StateOf(prefetch, run), tp));
    }
  }

  // ---------------------------------------------------------------------------
  // What becomes of a taken record
  // ---------------------------------------------------------------------------

  /** Its handler was started, or it was given up before that. */
  datatype Settlement = Handled(record: Record) | GivenUp(record: Record)

  predicate Undecided(pc: Pc) {
    pc.Acquiring? || pc.Parked?
  }

  /** The record of the partition, if any, that waits for a permit. */
  function Waits(s: State, tp: TopicPartition): seq<Record> {
    if tp in s.queues && s.queues[tp] < |s.lanes| && Undecided(s.lanes[s.queues[tp]].pc)
    then [s.lanes[s.queues[tp]].pc.record] else []
  }

  /** What the event decides of a waiting record.  It is given up only by a stop, by a cancellation of its lane,
      or when `concurrency` raises. */
  function SettlesNow(s: State, e: Event, tp: TopicPartition): seq<Settlement> {
    if !Enabled(s, e) then []
    else match e
      case TryAcquire(l, _) =>
        if s.lanes[l].tp != tp then []
        else if s.stopped then [GivenUp(s.lanes[l].pc.record)]
        else if Apply(s, e).lanes[l].pc.Handling? then [Handled(Apply(s, e).lanes[l].pc.record)]
        else []
      case LimitRaises(l) => if s.lanes[l].tp == tp then [GivenUp(s.lanes[l].pc.record)] else []
      case CancelLane(p) =>
        if p == tp && Undecided(s.lanes[s.tasks[p]].pc) then [GivenUp(s.lanes[s.tasks[p]].pc.record)] else []
      case _ => []
  }

  function Records(ss: seq<Settlement>): (r: seq<Record>)
    ensures |r| == |ss|
  {
    seq(|ss|, i requires 0 <= i < |ss| => ss[i].record)
  }

  ghost function Settled(prefetch: nat, run: Run<Event>, tp: TopicPartition): seq<Settlement> {
    if run.Start? then []
    else Settled(prefetch, run.before, tp) + SettlesNow(StateOf(prefetch, run.before), run.event, tp)
  }

  lemma {:induction false} LoopSettles(s: State, e: Event, tp: TopicPartition)
    requires Inv(s) && Enabled(s, e) && (e.LaneStart? || e.LaneContinue?)
    ensures Waits(s, tp) + TakesNow(s, e, tp) == Waits(Apply(s, e), tp) && SettlesNow(s, e, tp) == []
  {
    assert Owns(s, e.lane);
  }

  lemma {:induction false} AcquireSettles(s: State, e: Event, tp: TopicPartition)
    requires Inv(s) && Enabled(s, e) && (e.TryAcquire? || e.LimitRaises?)
    ensures Waits(s, tp) == Records(SettlesNow(s, e, tp)) + Waits(Apply(s, e), tp)
  {
    assert Owns(s, e.lane);
  }

  lemma {:induction false} CancelSettles(s: State, e: Event, tp: TopicPartition)
    requires Inv(s) && Enabled(s, e) && e.CancelLane?
    ensures Waits(s, tp) == Records(SettlesNow(s, e, tp)) + Waits(Apply(s, e), tp)
  {
    assert s.tasks[e.tp] == s.queues[e.tp] && s.lanes[s.tasks[e.tp]].tp == e.tp;
  }

  lemma {:induction false} OtherSettles(s: State, e: Event, tp: TopicPartition)
    requires Inv(s) && Enabled(s, e) && !e.CancelLane?
    requires !e.LaneStart? && !e.LaneContinue? && !e.TryAcquire? && !e.LimitRaises?
    ensures SettlesNow(s, e, tp) == [] && Waits(s, tp) == Waits(Apply(s, e), tp)
  {
    hide LoopTop, EndLane;
  }

  lemma {:induction false} SettleStep(s: State, e: Event, tp: TopicPartition)
    requires Inv(s) && Enabled(s, e)
    ensures Waits(s, tp) + TakesNow(s, e, tp) == Records(SettlesNow(s, e, tp)) + Waits(Apply(s, e), tp)
  {
    hide Apply, Enabled, Inv, Waits, SettlesNow;
    if e.LaneStart? || e.LaneContinue? {
      LoopSettles(s, e, tp);
      assert Records([]) + Waits(Apply(s, e), tp) == Waits(Apply(s, e), tp);
    } else {
      if e.TryAcquire? || e.LimitRaises? {
        AcquireSettles(s, e, tp);
      } else if e.CancelLane? {
        CancelSettles(s, e, tp);
      } else {
        OtherSettles(s, e, tp);
        assert Records([]) + Waits(s, tp) == Waits(s, tp);
      }
      assert Waits(s, tp) + [] == Waits(s, tp);
    }
  }

  lemma SettlesAdd(taken: seq<Record>, settled: seq<Settlement>, waits: seq<Record>,
                   takes: seq<Record>, settles: seq<Settlement>, waits': seq<Record>)
    requires taken == Records(settled) + waits && waits + takes == Records(settles) + waits'
    ensures taken + takes == Records(settled + settles) + waits'
  {
    assert Records(settled + settles) == Records(settled) + Records(settles);
    assert Records(settled) + waits + takes == Records(settled) + (waits + takes);
    assert Records(settled) + Records(settles) + waits' == Records(settled) + (Records(settles) + waits');
  }

  /** Every record a lane takes is settled, in order: its handler is started, or it is given up.  At most the
      newest one still waits. */
  lemma {:induction false} EveryTakenRecordSettles(prefetch: nat, run: Run<Event>, tp: TopicPartition)
    ensures Taken(prefetch, run, tp) == Records(Settled(prefetch, run, tp)) + Waits(StateOf(prefetch, run), tp)
  {
    if run.Start? {
      assert Waits(Initial(prefetch), tp) == [];
    } else {
      hide Apply, Enabled, Inv, Waits, SettlesNow, TakesNow;
      EveryTakenRecordSettles(prefetch, run.before, tp);
      InvHolds(prefetch, run.before);
      var s, e, t := StateOf(prefetch, run.before), run.event, StateOf(prefetch, run);
      if Enabled(s, e) {
        SettleStep(s, e, tp);
      } else {
        NothingSettles(s, e, tp);
      }
      SettlesAdd(Taken(prefetch, run.before, tp), Settled(prefetch, run.before, tp), Waits(s, tp),
                 TakesNow(s, e, tp), SettlesNow(s, e, tp), Waits(t, tp));
    }
  }

  lemma NothingSettles(s: State, e: Event, tp: TopicPartition)
    requires !Enabled(s, e)
    ensures Waits(s, tp) + TakesNow(s, e, tp) == Records(SettlesNow(s, e, tp)) + Waits(s, tp)
  {
  }

  /** The source was stopped. */
  ghost predicate HasStopped(run: Run<Event>) {
    run.Then? && (run.event.Stop? || HasStopped(run.before))
  }

  lemma StopStep(s: State, e: Event)
    requires Enabled(s, e)
    ensures Apply(s, e).stopped <==> s.stopped || e.Stop?
  {
  }

  lemma {:induction false} StoppedIff(prefetch: nat, run: Run<Event>)
    ensures StateOf(prefetch, run).stopped <==> HasStopped(run)
  {
    if run.Then? {
      hide Apply;
      StoppedIff(prefetch, run.before);
      if Enabled(StateOf(prefetch, run.before), run.event) {
        StopStep(StateOf(prefetch, run.before), run.event);
      }
    }
  }

  /** A lane that asks for a permit starts its handler if and only if the source is not stopped and fewer
      handlers than the limit are in flight, or there is no limit.  At the limit it waits with its record, and
      after a stop it gives the record up. */
  lemma AcquireIff(prefetch: nat, run: Run<Event>, l: nat, limit: int)
    requires Enabled(StateOf(prefetch, run), TryAcquire(l, limit))
    ensures var s := StateOf(prefetch, run);
            var t, r := Apply(s, TryAcquire(l, limit)), s.lanes[l].pc.record;
            var free := limit == 0 || |InFlight(s)| < limit;
            && (t.lanes[l].pc == Handling(r) <==> !HasStopped(run) && free)
            && (t.lanes[l].pc == Parked(r, limit) <==> !HasStopped(run) && !free)
            && (t.lanes[l].pc == Dispatched(Returned) <==> HasStopped(run))
  {
    InvHolds(prefetch, run);
    StoppedIff(prefetch, run);
  }

  /** A release of a permit or a notification makes every sleeping lane look again, with its own record. */
  lemma EverySleeperWakes(prefetch: nat, run: Run<Event>, k: nat)
    requires run.Then? && Enabled(StateOf(prefetch, run.before), run.event) && (run.event.Release? || run.event.NotifyAll?)
    requires k < |StateOf(prefetch, run.before).lanes|
    ensures var s, t := StateOf(prefetch, run.before), StateOf(prefetch, run);
            && k < |t.lanes| && !t.lanes[k].pc.Parked?
            && (s.lanes[k].pc.Parked? ==> t.lanes[k].pc == Acquiring(s.lanes[k].pc.record))
  {
  }

  /** How the lane's dispatch ended: as its handler did, unless its lane was cancelled outside the handler or
      `concurrency` raised. */
  ghost function OutcomeOf(prefetch: nat, run: Run<Event>, l: nat): Outcome {
    if run.Start? then Returned
    else
      var s, before := StateOf(prefetch, run.before), OutcomeOf(prefetch, run.before, l);
      if !Enabled(s, run.event) then before
      else match run.event
        case TryAcquire(k, _) => if k == l then Returned else before
        case LimitRaises(k) => if k == l then Raised else before
        case HandlerEnd(k, outcome) => if k == l then outcome else before
        case CancelLane(tp) => if s.tasks[tp] == l && Cancellable(s.lanes[l].pc) then Cancelled else before
        case _ => before
  }

  predicate Cancellable(pc: Pc) {
    Undecided(pc) || pc.Dispatched?
  }

  /** The event decides how the lane's dispatch ends. */
  predicate Changes(s: State, e: Event, l: nat)
    requires Enabled(s, e) && l < |s.lanes|
  {
    || (e.TryAcquire? && e.lane == l) || (e.LimitRaises? && e.lane == l) || (e.HandlerEnd? && e.lane == l)
    || (e.CancelLane? && s.tasks[e.tp] == l && Cancellable(s.lanes[l].pc))
  }

  predicate Reports(pc: Pc, outcome: Outcome) {
    pc.Releasing? || pc.Dispatched? ==> pc.outcome == outcome
  }

  lemma {:induction false} ReportStep(s: State, e: Event, l: nat, outcome: Outcome)
    requires Enabled(s, e) && l < |s.lanes| && Reports(s.lanes[l].pc, outcome) && !Changes(s, e, l)
    ensures l < |Apply(s, e).lanes| && Reports(Apply(s, e).lanes[l].pc, outcome)
  {
  }

  lemma {:induction false} NewReport(s: State, e: Event, l: nat)
    requires Enabled(s, e) && l < |s.lanes|
    ensures |Apply(s, e).lanes| >= |s.lanes|
    ensures e.TryAcquire? && e.lane == l ==> Reports(Apply(s, e).lanes[l].pc, Returned)
    ensures e.LimitRaises? && e.lane == l ==> Reports(Apply(s, e).lanes[l].pc, Raised)
    ensures e.HandlerEnd? && e.lane == l ==> Reports(Apply(s, e).lanes[l].pc, e.outcome)
    ensures e.CancelLane? && s.tasks[e.tp] == l && Cancellable(s.lanes[l].pc) ==> Reports(Apply(s, e).lanes[l].pc, Cancelled)
  {
  }

  lemma {:induction false} NewLaneReports(s: State, e: Event, l: nat)
    requires Enabled(s, e) && |s.lanes| <= l < |Apply(s, e).lanes|
    ensures Apply(s, e).lanes[l].pc.Created?
  {
  }

  lemma {:induction false} OutcomeIsReported(prefetch: nat, run: Run<Event>, l: nat)
    requires l < |StateOf(prefetch, run).lanes|
    ensures Reports(StateOf(prefetch, run).lanes[l].pc, OutcomeOf(prefetch, run, l))
  {
    hide Apply;
    var s, e := StateOf(prefetch, run.before), run.event;
    if l < |s.lanes| {
      OutcomeIsReported(prefetch, run.before, l);
    }
    if Enabled(s, e) {
      if l >= |s.lanes| {
        NewLaneReports(s, e, l);
      } else {
        NewReport(s, e, l);
        if !Changes(s, e, l) {
          ReportStep(s, e, l, OutcomeOf(prefetch, run.before, l));
        }
      }
    }
  }

  /** After a dispatch the lane takes its next record if and only if the dispatch returned normally, the source
      is not stopped and a record is queued; otherwise it ends and its partition is resumed. */
  lemma LaneGoesOnIff(prefetch: nat, run: Run<Event>, l: nat)
    requires Enabled(StateOf(prefetch, run), LaneContinue(l))
    ensures var s := StateOf(prefetch, run);
            var t, lane := Apply(s, LaneContinue(l)), s.lanes[l];
            if OutcomeOf(prefetch, run, l) == Returned && !HasStopped(run) && lane.queue != []
            then t.lanes[l] == Lane(lane.tp, lane.queue[1..], Acquiring(lane.queue[0]))
            else t.lanes[l] == Lane(lane.tp, [], Ended) && lane.tp !in t.queues && lane.tp !in t.tasks && lane.tp !in t.paused
  {
    OutcomeIsReported(prefetch, run, l);
    StoppedIff(prefetch, run);
  }

  /** A lane's first step takes its first record, unless the source is stopped. */
  lemma LaneStartsIff(prefetch: nat, run: Run<Event>, l: nat)
    requires Enabled(StateOf(prefetch, run), LaneStart(l)) && StateOf(prefetch, run).lanes[l].queue != []
    ensures var s := StateOf(prefetch, run);
            var t, lane := Apply(s, LaneStart(l)), s.lanes[l];
            if HasStopped(run) then t.lanes[l] == Lane(lane.tp, [], Ended) && lane.tp !in t.queues
            else t.lanes[l] == Lane(lane.tp, lane.queue[1..], Acquiring(lane.queue[0]))
  {
    StoppedIff(prefetch, run);
  }

  // ---------------------------------------------------------------------------
  // Pausing
  // ---------------------------------------------------------------------------

  /** Since the partition's lane was created, an arrival filled its queue up to the prefetch limit. */
  ghost predicate Filled(prefetch: nat, run: Run<Event>, tp: TopicPartition) {
    run.Then? &&
    var s, t := StateOf(prefetch, run.before), StateOf(prefetch, run);
    tp in t.queues && (Filled(prefetch, run.before, tp) || (ArrivesNow(s, run.event, tp) != [] && |Queue(t, tp)| >= prefetch))
  }

  lemma {:induction false} PauseStep(s: State, e: Event, tp: TopicPartition)
    requires Inv(s) && Enabled(s, e)
    ensures var t := Apply(s, e);
            tp in t.paused <==> tp in t.queues && (tp in s.paused || (ArrivesNow(s, e, tp) != [] && |Queue(t, tp)| >= s.prefetch))
  {
    if e.LaneStart? || e.LaneContinue? {
      assert Owns(s, e.lane);
    }
  }

  lemma {:induction false} PausedIff(prefetch: nat, run: Run<Event>, tp: TopicPartition)
    ensures StateOf(prefetch, run).prefetch == prefetch
    ensures tp in StateOf(prefetch, run).paused <==> Filled(prefetch, run, tp)
  {
    if run.Then? {
      hide Apply, Queue, Inv;
      PausedIff(prefetch, run.before, tp);
      InvHolds(prefetch, run.before);
      var s, e := StateOf(prefetch, run.before), run.event;
      PauseKeepsTables(s);
      if Enabled(s, e) {
        PauseStep(s, e, tp);
        PrefetchStays(s, e);
      }
    }
  }

  lemma PauseKeepsTables(s: State)
    requires Inv(s)
    ensures s.paused <= s.queues.Keys
  {
  }

  lemma PrefetchStays(s: State, e: Event)
    requires Enabled(s, e)
    ensures Apply(s, e).prefetch == s.prefetch
  {
  }

  /** Once every lane has ended and none was lost, the tables are empty, nothing is paused and no permit is out. */
  lemma QuietSourceIsClean(prefetch: nat, run: Run<Event>)
    requires var s := StateOf(prefetch, run); forall l :: 0 <= l < |s.lanes| ==> !Live(s.lanes[l].pc)
    requires forall tp :: !LaneLost(prefetch, run, tp)
    ensures var s := StateOf(prefetch, run); s.queues == map[] && s.tasks == map[] && s.paused == {} && s.active == 0
  {
    var s := StateOf(prefetch, run);
    InvHolds(prefetch, run);
    forall tp | tp in s.queues
      ensures false
    {
      OwnerLostIff(prefetch, run, tp);
    }
    assert InFlight(s) == {};
  }

  // ---------------------------------------------------------------------------
  // The endpoint consumer
  // ---------------------------------------------------------------------------

  /** The consumer's scheduling fields.  Each method is the code between two suspension points. */
  class Scheduler {
    const partitionPrefetch: nat
    var partitionQueues: map<TopicPartition, nat>
    var partitionTasks: map<TopicPartition, nat>
    var pausedPartitions: set<TopicPartition>
    var activeCount: int
    var stopped: bool
    var lanes: seq<Lane>

    constructor (prefetch: nat)
      ensures View() == Initial(prefetch)
    {
      partitionPrefetch := prefetch;
      partitionQueues, partitionTasks, pausedPartitions := map[], map[], {};
      activeCount, stopped, lanes := 0, false, [];
    }

    function View(): State
      reads this
    {
      State(lanes, partitionQueues, partitionTasks, pausedPartitions, activeCount, stopped, partitionPrefetch)
    }

    method ProcessRecord(record: Record, admitted: bool)
      requires Enabled(View(), Arrive(record, admitted))
      modifies this
      ensures View() == Apply(old(View()), Arrive(record, admitted))
    {
      if stopped || !admitted {
        return;
      }
      var tp := record.tp;
      var lane: nat;
      if tp in partitionQueues {
        lane := partitionQueues[tp];
        lanes := lanes[lane := lanes[lane].(queue := lanes[lane].queue + [record])];
      } else {
        lane := |lanes|;
        lanes := lanes + [Lane(tp, [record], Created)];
        partitionQueues := partitionQueues[tp := lane];
        partitionTasks := partitionTasks[tp := lane];
      }
      if |lanes[lane].queue| >= partitionPrefetch {
        pausedPartitions := pausedPartitions + {tp};
      }
    }

    /** The `finally` block of a lane. */
    method FinishLane(lane: nat)
      requires lane < |lanes|
      modifies this
      ensures View() == EndLane(old(View()), lane)
    {
      var tp := lanes[lane].tp;
      partitionTasks := partitionTasks - {tp};
      partitionQueues := partitionQueues - {tp};
      lanes := lanes[lane := Lane(tp, [], Ended)];
      pausedPartitions := pausedPartitions - {tp};
    }

    method TakeNext(lane: nat)
      requires lane < |lanes|
      modifies this
      ensures View() == LoopTop(old(View()), lane)
    {
      var queue := lanes[lane].queue;
      if queue != [] && !stopped {
        lanes := lanes[lane := Lane(lanes[lane].tp, queue[1..], Acquiring(queue[0]))];
      } else {
        FinishLane(lane);
      }
    }

    method StartLane(lane: nat)
      requires Enabled(View(), LaneStart(lane))
      modifies this
      ensures View() == Apply(old(View()), LaneStart(lane))
    {
      TakeNext(lane);
    }

    /** The lane after its record was dispatched, or after the dispatch raised. */
    method ContinueLane(lane: nat)
      requires Enabled(View(), LaneContinue(lane))
      modifies this
      ensures View() == Apply(old(View()), LaneContinue(lane))
    {
      if lanes[lane].pc.outcome != Returned {
        FinishLane(lane);
      } else {
        if lanes[lane].queue == [] {
          pausedPartitions := pausedPartitions - {lanes[lane].tp};
        }
        TakeNext(lane);
      }
    }

    /** One turn of the loop that waits for a permit. */
    method AcquireConcurrency(lane: nat, limit: int)
      requires Enabled(View(), TryAcquire(lane, limit))
      modifies this
      ensures View() == Apply(old(View()), TryAcquire(lane, limit))
    {
      var record := lanes[lane].pc.record;
      if stopped {
        lanes := lanes[lane := lanes[lane].(pc := Dispatched(Returned))];
      } else if limit == 0 || activeCount < limit {
        activeCount := activeCount + 1;
        lanes := lanes[lane := lanes[lane].(pc := Handling(record))];
      } else {
        lanes := lanes[lane := lanes[lane].(pc := Parked(record, limit))];
      }
    }

    /** The handler's `concurrency` raised: the lane leaves the loop without a permit. */
    method ConcurrencyRaised(lane: nat)
      requires Enabled(View(), LimitRaises(lane))
      modifies this
      ensures View() == Apply(old(View()), LimitRaises(lane))
    {
      lanes := lanes[lane := lanes[lane].(pc := Dispatched(Raised))];
    }

    /** Wake the waiting lanes one by one. */
    method NotifyWaiters()
      modifies this`lanes
      ensures lanes == Woken(old(lanes))
    {
      var i := 0;
      while i < |lanes|
        invariant 0 <= i <= |lanes| == |old(lanes)|
        invariant forall k :: 0 <= k < |lanes| ==> lanes[k] == if k < i then Woken(old(lanes))[k] else old(lanes)[k]
      {
        if lanes[i].pc.Parked? {
          lanes := lanes[i := lanes[i].(pc := Acquiring(lanes[i].pc.record))];
        }
        i := i + 1;
      }
    }

    method ReleaseConcurrency(lane: nat)
      requires Enabled(View(), Release(lane))
      modifies this
      ensures View() == Apply(old(View()), Release(lane))
    {
      activeCount := activeCount - 1;
      lanes := lanes[lane := lanes[lane].(pc := Dispatched(lanes[lane].pc.outcome))];
      NotifyWaiters();
    }

    /** What the revocation's `task.cancel()` does to the partition's lane. */
    method CancelPartition(tp: TopicPartition)
      requires Enabled(View(), CancelLane(tp))
      modifies this
      ensures View() == Apply(old(View()), CancelLane(tp))
    {
      var lane := partitionTasks[tp];
      if lanes[lane].pc.Created? {
        lanes := lanes[lane := lanes[lane].(pc := Lost)];
      } else if lanes[lane].pc.Acquiring? || lanes[lane].pc.Parked? || lanes[lane].pc.Dispatched? {
        lanes := lanes[lane := lanes[lane].(pc := Dispatched(Cancelled))];
      }
    }
  }
}
