/** The Kafka source as a whole: its offsets and its lanes together.  A record is admitted by the
    assignment, its handler captures the assignment's epoch when the lane gets its place, and a
    revocation cancels the lanes of its partitions and waits for them. */
module KafkaSource {
  import opened KafkaTypes
  import opened Runs
  import KafkaLanes
  import KafkaOffsets

  /** `gathered` are the lanes that the revocation waits for; `requests` is, per lane, the request of its
      latest handler call. */
  datatype State = State(
    offsets: KafkaOffsets.State,
    lanes: KafkaLanes.State,
    gathered: set<nat>,
    requests: map<nat, KafkaOffsets.Request>)

  function Initial(restoring: bool, prefetch: nat): State {
    State(KafkaOffsets.Initial(restoring), KafkaLanes.Initial(prefetch), {}, map[])
  }

  /** Besides the revocation's, cancellations of lanes may come from elsewhere, as at shutdown. */
  datatype Event =
    | Arrive(record: KafkaLanes.Record)
    | Acquire(lane: nat, limit: int)
    | InLanes(step: KafkaLanes.Event)
    | InOffsets(change: KafkaOffsets.Event)
    | Revoke(order: seq<TopicPartition>)
    | RevokeDone

  function PartsOf(order: seq<TopicPartition>): set<TopicPartition> {
    set tp | tp in order
  }

  /** The lane's task is over. */
  predicate Dead(pc: KafkaLanes.Pc) {
    pc.Ended? || pc.Lost?
  }

  predicate AllDead(lanes: KafkaLanes.State, gathered: set<nat>) {
    forall l <- gathered :: l < |lanes.lanes| && Dead(lanes.lanes[l].pc)
  }

  predicate Enabled(s: State, e: Event) {
    match e
    case Arrive(r) => KafkaLanes.Enabled(s.lanes, KafkaLanes.Arrive(r, s.offsets.Live(r.tp)))
    case Acquire(l, limit) => KafkaLanes.Enabled(s.lanes, KafkaLanes.TryAcquire(l, limit))
    case InLanes(step) => !step.Arrive? && !step.TryAcquire? && KafkaLanes.Enabled(s.lanes, step)
    case InOffsets(change) =>
      !change.Begin? && !change.RevokeBegin? && !change.RevokeEnd? && KafkaOffsets.Enabled(s.offsets, change)
    case Revoke(order) => KafkaOffsets.Enabled(s.offsets, KafkaOffsets.RevokeBegin(PartsOf(order)))
    case RevokeDone => KafkaOffsets.Enabled(s.offsets, KafkaOffsets.RevokeEnd) && AllDead(s.lanes, s.gathered)
  }

  /** Cancel the partition's lane, if it has one. */
  function CancelOne(s: KafkaLanes.State, tp: TopicPartition): KafkaLanes.State {
    if KafkaLanes.Enabled(s, KafkaLanes.CancelLane(tp)) then KafkaLanes.Apply(s, KafkaLanes.CancelLane(tp)) else s
  }

  /** The revocation's loop over its partitions. */
  function CancelAll(s: KafkaLanes.State, order: seq<TopicPartition>): KafkaLanes.State {
    if order == [] then s else CancelOne(CancelAll(s, order[..|order| - 1]), order[|order| - 1])
  }

  function TasksOf(s: KafkaLanes.State, parts: set<TopicPartition>): set<nat> {
    set tp | tp in parts && tp in s.tasks :: s.tasks[tp]
  }

  function Apply(s: State, e: Event): State
    requires Enabled(s, e)
  {
    match e
    case Arrive(r) => s.(lanes := KafkaLanes.Apply(s.lanes, KafkaLanes.Arrive(r, s.offsets.Live(r.tp))))
    case Acquire(l, limit) =>
      var r := s.lanes.lanes[l].pc.record;
      var t := s.(lanes := KafkaLanes.Apply(s.lanes, KafkaLanes.TryAcquire(l, limit)));
      if !t.lanes.lanes[l].pc.Handling? then t
      else
        t.(offsets := KafkaOffsets.Apply(s.offsets, KafkaOffsets.Begin(r.tp, r.offset)),
        requests := s.requests[l := KafkaOffsets.Request(r.tp, r.offset, s.offsets.Epoch(r.tp))])
    case InLanes(step) => s.(lanes := KafkaLanes.Apply(s.lanes, step))
    case InOffsets(change) => s.(offsets := KafkaOffsets.Apply(s.offsets, change))
    case Revoke(order) =>
      State(KafkaOffsets.Apply(s.offsets, KafkaOffsets.RevokeBegin(PartsOf(order))), CancelAll(s.lanes, order),
            TasksOf(s.lanes, PartsOf(order)), s.requests)
    case RevokeDone => s.(offsets := KafkaOffsets.Apply(s.offsets, KafkaOffsets.RevokeEnd))
  }

  // ---------------------------------------------------------------------------
  // Invariant
  // ---------------------------------------------------------------------------

  /** While a revocation waits, it waits for every lane of its partitions that still lives. */
  ghost predicate Gathers(s: State) {
    s.offsets.rebalance.Revoking? ==>
      forall l ::
        (0 <= l < |s.lanes.lanes| && s.lanes.lanes[l].tp in s.offsets.rebalance.parts && !Dead(s.lanes.lanes[l].pc))
        ==> l in s.gathered
  }

  predicate HasRecord(pc: KafkaLanes.Pc) {
    pc.Acquiring? || pc.Parked? || pc.Handling? || pc.Releasing?
  }

  /** A lane queues and handles records of its own partition. */
  ghost predicate OwnRecords(s: KafkaLanes.State) {
    && (forall l, i :: 0 <= l < |s.lanes| && 0 <= i < |s.lanes[l].queue| ==> s.lanes[l].queue[i].tp == s.lanes[l].tp)
    && (forall l :: 0 <= l < |s.lanes| && HasRecord(s.lanes[l].pc) ==> s.lanes[l].pc.record.tp == s.lanes[l].tp)
  }

  ghost predicate LanesOk(s: KafkaLanes.State) {
    KafkaLanes.Inv(s) && OwnRecords(s)
  }

  ghost predicate Inv(s: State) {
    KafkaOffsets.Inv(s.offsets) && LanesOk(s.lanes) && Gathers(s)
  }

  /** What any step of the lanes keeps: lanes stay where they are, the dead stay dead, and no lane gets a place
      but by acquiring it.  Only an admitted record of its partition opens a lane. */
  ghost predicate LanesGrow(s: KafkaLanes.State, t: KafkaLanes.State, admitted: set<TopicPartition>) {
    && |s.lanes| <= |t.lanes|
    && (forall l :: 0 <= l < |s.lanes| ==>
          t.lanes[l].tp == s.lanes[l].tp && (Dead(s.lanes[l].pc) ==> Dead(t.lanes[l].pc)))
    && (forall l :: |s.lanes| <= l < |t.lanes| ==> t.lanes[l].tp in admitted && t.lanes[l].pc.Created?)
  }

  /** Lanes with a place had it before. */
  ghost predicate NoNewPlace(s: KafkaLanes.State, t: KafkaLanes.State) {
    forall l :: 0 <= l < |t.lanes| && KafkaLanes.Permit(t.lanes[l].pc) ==> l < |s.lanes| && KafkaLanes.Permit(s.lanes[l].pc)
  }

  function Admits(e: KafkaLanes.Event): set<TopicPartition> {
    if e.Arrive? && e.admitted then {e.record.tp} else {}
  }

  predicate Loops(e: KafkaLanes.Event) {
    e.LaneStart? || e.LaneContinue?
  }

  lemma ArriveStep(s: KafkaLanes.State, e: KafkaLanes.Event)
    requires KafkaLanes.Enabled(s, e) && e.Arrive?
    ensures LanesGrow(s, KafkaLanes.Apply(s, e), Admits(e)) && NoNewPlace(s, KafkaLanes.Apply(s, e))
  {
  }

  lemma LoopStep(s: KafkaLanes.State, e: KafkaLanes.Event)
    requires KafkaLanes.Enabled(s, e) && Loops(e)
    ensures LanesGrow(s, KafkaLanes.Apply(s, e), {}) && NoNewPlace(s, KafkaLanes.Apply(s, e))
  {
  }

  lemma OtherStep(s: KafkaLanes.State, e: KafkaLanes.Event)
    requires KafkaLanes.Enabled(s, e) && !e.Arrive? && !Loops(e)
    ensures LanesGrow(s, KafkaLanes.Apply(s, e), {})
    ensures !e.TryAcquire? ==> NoNewPlace(s, KafkaLanes.Apply(s, e))
  {
    hide KafkaLanes.LoopTop, KafkaLanes.EndLane, KafkaLanes.Append;
  }

  lemma LanesStep(s: KafkaLanes.State, e: KafkaLanes.Event)
    requires KafkaLanes.Enabled(s, e)
    ensures LanesGrow(s, KafkaLanes.Apply(s, e), Admits(e))
    ensures !e.TryAcquire? ==> NoNewPlace(s, KafkaLanes.Apply(s, e))
  {
    hide LanesGrow, NoNewPlace, KafkaLanes.Apply;
    if e.Arrive? {
      ArriveStep(s, e);
    } else if Loops(e) {
      LoopStep(s, e);
    } else {
      OtherStep(s, e);
    }
  }

  lemma ArriveRecords(s: KafkaLanes.State, e: KafkaLanes.Event)
    requires LanesOk(s) && KafkaLanes.Enabled(s, e) && e.Arrive?
    ensures OwnRecords(KafkaLanes.Apply(s, e))
  {
    if e.record.tp in s.queues {
      assert s.lanes[s.queues[e.record.tp]].tp == e.record.tp;
    }
    hide KafkaLanes.Inv;
  }

  lemma EndRecords(s: KafkaLanes.State, l: nat)
    requires OwnRecords(s) && l < |s.lanes|
    ensures OwnRecords(KafkaLanes.EndLane(s, l))
  {
  }

  lemma TopRecords(s: KafkaLanes.State, l: nat)
    requires OwnRecords(s) && l < |s.lanes|
    ensures OwnRecords(KafkaLanes.LoopTop(s, l))
  {
    EndRecords(s, l);
    hide KafkaLanes.EndLane;
  }

  lemma LoopRecords(s: KafkaLanes.State, e: KafkaLanes.Event)
    requires OwnRecords(s) && KafkaLanes.Enabled(s, e) && Loops(e)
    ensures OwnRecords(KafkaLanes.Apply(s, e))
  {
    EndRecords(s, e.lane);
    TopRecords(s, e.lane);
    TopRecords(s.(paused := s.paused - {s.lanes[e.lane].tp}), e.lane);
    hide OwnRecords, KafkaLanes.EndLane, KafkaLanes.LoopTop;
  }

  lemma MoveRecords(s: KafkaLanes.State, l: nat, pc: KafkaLanes.Pc)
    requires OwnRecords(s) && l < |s.lanes| && (HasRecord(pc) ==> pc.record.tp == s.lanes[l].tp)
    ensures OwnRecords(KafkaLanes.WithPc(s, l, pc))
  {
  }

  lemma WakeRecords(s: KafkaLanes.State)
    requires OwnRecords(s)
    ensures OwnRecords(s.(lanes := KafkaLanes.Woken(s.lanes)))
  {
  }

  lemma CountRecords(s: KafkaLanes.State, active: int, stopped: bool)
    requires OwnRecords(s)
    ensures OwnRecords(s.(active := active, stopped := stopped))
  {
  }

  lemma OtherRecords(s: KafkaLanes.State, e: KafkaLanes.Event)
    requires OwnRecords(s) && KafkaLanes.Enabled(s, e) && !e.Arrive? && !Loops(e)
    ensures OwnRecords(KafkaLanes.Apply(s, e))
  {
    var t := KafkaLanes.Apply(s, e);
    if e.NotifyAll? {
      WakeRecords(s);
    } else if e.Stop? {
      CountRecords(s, s.active, true);
    } else {
      var l := if e.CancelLane? then s.tasks[e.tp] else e.lane;
      if e.Release? {
        var moved := KafkaLanes.WithPc(s, l, KafkaLanes.Dispatched(s.lanes[l].pc.outcome));
        MoveRecords(s, l, KafkaLanes.Dispatched(s.lanes[l].pc.outcome));
        CountRecords(moved, s.active - 1, s.stopped);
        WakeRecords(moved.(active := s.active - 1));
      } else {
        assert HasRecord(t.lanes[l].pc) ==> t.lanes[l].pc.record.tp == s.lanes[l].tp;
        MoveRecords(s, l, t.lanes[l].pc);
        CountRecords(KafkaLanes.WithPc(s, l, t.lanes[l].pc), t.active, s.stopped);
        hide OwnRecords;
        assert t.lanes == KafkaLanes.WithPc(s, l, t.lanes[l].pc).lanes;
      }
    }
  }

  lemma RecordsStep(s: KafkaLanes.State, e: KafkaLanes.Event)
    requires LanesOk(s) && KafkaLanes.Enabled(s, e)
    ensures OwnRecords(KafkaLanes.Apply(s, e))
  {
    if e.Arrive? {
      ArriveRecords(s, e);
    } else {
      hide KafkaLanes.Apply, KafkaLanes.Inv;
      if Loops(e) {
        LoopRecords(s, e);
      } else {
        OtherRecords(s, e);
      }
    }
  }

  lemma LanesStepOk(s: KafkaLanes.State, e: KafkaLanes.Event)
    requires LanesOk(s) && KafkaLanes.Enabled(s, e)
    ensures LanesOk(KafkaLanes.Apply(s, e))
  {
    KafkaLanes.StepKeepsInv(s, e);
    RecordsStep(s, e);
  }

  lemma GrowTwice(r: KafkaLanes.State, s: KafkaLanes.State, t: KafkaLanes.State)
    requires LanesGrow(r, s, {}) && LanesGrow(s, t, {}) && NoNewPlace(r, s) && NoNewPlace(s, t)
    ensures LanesGrow(r, t, {}) && NoNewPlace(r, t)
  {
  }

  lemma {:induction false} CancelAllSteps(s: KafkaLanes.State, order: seq<TopicPartition>)
    requires LanesOk(s)
    ensures var t := CancelAll(s, order);
            LanesOk(t) && t.tasks == s.tasks && LanesGrow(s, t, {}) && NoNewPlace(s, t)
  {
    if order != [] {
      var e, t := KafkaLanes.CancelLane(order[|order| - 1]), CancelAll(s, order[..|order| - 1]);
      CancelAllSteps(s, order[..|order| - 1]);
      if KafkaLanes.Enabled(t, e) {
        LanesStepOk(t, e);
        LanesStep(t, e);
        hide LanesOk, LanesGrow, NoNewPlace;
        GrowTwice(s, t, KafkaLanes.Apply(t, e));
      }
    }
  }

  lemma LiveOwns(s: KafkaLanes.State, l: nat)
    requires LanesOk(s) && l < |s.lanes| && !Dead(s.lanes[l].pc)
    ensures s.lanes[l].tp in s.tasks && s.tasks[s.lanes[l].tp] == l
  {
    assert KafkaLanes.Owns(s, l);
  }

  lemma RevokeKeepsInv(s: State, order: seq<TopicPartition>)
    requires Inv(s) && Enabled(s, Revoke(order))
    ensures Inv(Apply(s, Revoke(order)))
  {
    var parts, t := PartsOf(order), Apply(s, Revoke(order));
    KafkaOffsets.RebalanceStep(s.offsets, KafkaOffsets.RevokeBegin(parts));
    CancelAllSteps(s.lanes, order);
    hide KafkaOffsets.Inv, LanesOk, CancelAll;
    forall l | 0 <= l < |t.lanes.lanes| && t.lanes.lanes[l].tp in parts && !Dead(t.lanes.lanes[l].pc)
      ensures l in t.gathered
    {
      LiveOwns(s.lanes, l);
    }
  }

  lemma LanesKeepGathers(s: State, t: State, admitted: set<TopicPartition>)
    requires Gathers(s) && t.offsets.rebalance == s.offsets.rebalance && t.gathered == s.gathered
    requires LanesGrow(s.lanes, t.lanes, admitted)
    requires s.offsets.rebalance.Revoking? ==> admitted !! s.offsets.rebalance.parts
    ensures Gathers(t)
  {
  }

  /** A revocation in progress admits nothing of its partitions. */
  lemma RevokingAdmitsNothing(s: KafkaOffsets.State, r: KafkaLanes.Record)
    requires KafkaOffsets.Inv(s)
    ensures s.rebalance.Revoking? ==> Admits(KafkaLanes.Arrive(r, s.Live(r.tp))) !! s.rebalance.parts
  {
  }

  lemma NotRevokingGathers(s: State)
    requires !s.offsets.rebalance.Revoking?
    ensures Gathers(s)
  {
  }

  lemma OffsetsKeepGathers(s: State, change: KafkaOffsets.Event)
    requires Gathers(s) && Enabled(s, InOffsets(change))
    ensures Gathers(Apply(s, InOffsets(change)))
  {
  }

  lemma {:induction false} AcquireKeepsInv(s: State, l: nat, limit: int)
    requires Inv(s) && Enabled(s, Acquire(l, limit))
    ensures Inv(Apply(s, Acquire(l, limit)))
  {
    var step, r := KafkaLanes.TryAcquire(l, limit), s.lanes.lanes[l].pc.record;
    LanesStepOk(s.lanes, step);
    LanesStep(s.lanes, step);
    KafkaOffsets.RequestStep(s.offsets, KafkaOffsets.Begin(r.tp, r.offset));
    hide KafkaOffsets.Inv, LanesOk, LanesGrow, Gathers, KafkaLanes.Apply;
    LanesKeepGathers(s, Apply(s, Acquire(l, limit)), {});
  }

  lemma {:induction false} StepKeepsInv(s: State, e: Event)
    requires Inv(s) && Enabled(s, e)
    ensures Inv(Apply(s, e))
  {
    hide KafkaOffsets.Inv, LanesOk, LanesGrow, Gathers, KafkaLanes.Apply, KafkaOffsets.Apply;
    match e
    case Arrive(r) =>
      var step := KafkaLanes.Arrive(r, s.offsets.Live(r.tp));
      LanesStepOk(s.lanes, step);
      LanesStep(s.lanes, step);
      RevokingAdmitsNothing(s.offsets, r);
      LanesKeepGathers(s, Apply(s, e), Admits(step));
    case Acquire(l, limit) => AcquireKeepsInv(s, l, limit);
    case InLanes(step) =>
      LanesStepOk(s.lanes, step);
      LanesStep(s.lanes, step);
      LanesKeepGathers(s, Apply(s, e), {});
    case InOffsets(change) =>
      OffsetsKeepGathers(s, change);
      if KafkaOffsets.IsRebalance(change) {
        KafkaOffsets.RebalanceStep(s.offsets, change);
      } else {
        KafkaOffsets.RequestStep(s.offsets, change);
      }
    case Revoke(order) => RevokeKeepsInv(s, order);
    case RevokeDone =>
      KafkaOffsets.RebalanceStep(s.offsets, KafkaOffsets.RevokeEnd);
      RevokeEndSettles(s.offsets);
      NotRevokingGathers(Apply(s, e));
  }

  lemma RevokeEndSettles(s: KafkaOffsets.State)
    requires KafkaOffsets.Enabled(s, KafkaOffsets.RevokeEnd)
    ensures KafkaOffsets.Apply(s, KafkaOffsets.RevokeEnd).rebalance.Settled?
  {
  }

  // ---------------------------------------------------------------------------
  // Runs
  // ---------------------------------------------------------------------------

  /** The state after a run.  An event whose guard does not hold cannot happen and changes nothing. */
  ghost function StateOf(restoring: bool, prefetch: nat, run: Run<Event>): State {
    if run.Start? then Initial(restoring, prefetch)
    else
      var s := StateOf(restoring, prefetch, run.before);
      if Enabled(s, run.event) then Apply(s, run.event) else s
  }

  lemma InitialInv(restoring: bool, prefetch: nat)
    ensures Inv(Initial(restoring, prefetch))
  {
    assert KafkaLanes.InFlight(KafkaLanes.Initial(prefetch)) == {};
  }

  lemma {:induction false} InvHolds(restoring: bool, prefetch: nat, run: Run<Event>)
    ensures Inv(StateOf(restoring, prefetch, run))
  {
    hide Apply, Enabled, Inv;
    if run.Start? {
      InitialInv(restoring, prefetch);
    } else {
      InvHolds(restoring, prefetch, run.before);
      if Enabled(StateOf(restoring, prefetch, run.before), run.event) {
        StepKeepsInv(StateOf(restoring, prefetch, run.before), run.event);
      }
    }
  }

  // ---------------------------------------------------------------------------
  // After a revocation
  // ---------------------------------------------------------------------------

  /** The revocation callback returned for `tp` as the newest event. */
  ghost predicate RevokedNow(restoring: bool, prefetch: nat, run: Run<Event>, tp: TopicPartition) {
    run.Then? && run.event.RevokeDone? &&
    var s := StateOf(restoring, prefetch, run.before);
    Enabled(s, run.event) && tp in s.offsets.rebalance.parts
  }

  /** The partition has no living lane. */
  ghost predicate Quiet(s: State, tp: TopicPartition) {
    forall l :: 0 <= l < |s.lanes.lanes| && s.lanes.lanes[l].tp == tp ==> Dead(s.lanes.lanes[l].pc)
  }

  /** When the revocation returns, no lane of a revoked partition is dispatching, waiting or about to start. */
  lemma RevokedPartitionsAreQuiet(restoring: bool, prefetch: nat, run: Run<Event>, tp: TopicPartition)
    requires RevokedNow(restoring, prefetch, run, tp)
    ensures Quiet(StateOf(restoring, prefetch, run), tp)
  {
    InvHolds(restoring, prefetch, run.before);
  }

  /** Of what `tp` had up to epoch `e` nothing is left: its living lanes are there because a newer epoch began,
      and every handler call in flight captured a newer epoch. */
  ghost predicate OnlyNewer(s: State, tp: TopicPartition, e: nat) {
    && KafkaOffsets.Fenced(s.offsets, tp, e)
    && (Quiet(s, tp) || e < s.offsets.Epoch(tp))
    && (forall l :: 0 <= l < |s.lanes.lanes| && s.lanes.lanes[l].tp == tp && KafkaLanes.Permit(s.lanes.lanes[l].pc)
          ==> l in s.requests && s.requests[l].tp == tp && e < s.requests[l].epoch)
  }

  /** Steps of the lanes alone, and the arrival of a record. */
  lemma LanesKeepNewer(s: State, t: State, tp: TopicPartition, e: nat, admitted: set<TopicPartition>)
    requires OnlyNewer(s, tp, e) && t == s.(lanes := t.lanes)
    requires LanesGrow(s.lanes, t.lanes, admitted) && NoNewPlace(s.lanes, t.lanes)
    requires tp in admitted ==> s.offsets.Live(tp)
    ensures OnlyNewer(t, tp, e)
  {
  }

  /** Steps of the offsets alone. */
  lemma OffsetsKeepNewer(s: State, t: State, tp: TopicPartition, e: nat)
    requires OnlyNewer(s, tp, e) && t == s.(offsets := t.offsets, gathered := t.gathered)
    requires KafkaOffsets.Fenced(t.offsets, tp, e) && s.offsets.Epoch(tp) <= t.offsets.Epoch(tp)
    ensures OnlyNewer(t, tp, e)
  {
  }

  lemma OffsetsGoOn(s: KafkaOffsets.State, change: KafkaOffsets.Event, tp: TopicPartition, e: nat)
    requires KafkaOffsets.Inv(s) && KafkaOffsets.Enabled(s, change) && KafkaOffsets.Fenced(s, tp, e)
    ensures KafkaOffsets.Fenced(KafkaOffsets.Apply(s, change), tp, e)
    ensures s.Epoch(tp) <= KafkaOffsets.Apply(s, change).Epoch(tp)
  {
    KafkaOffsets.FenceStep(s, change, tp, e);
    if KafkaOffsets.IsRebalance(change) {
      KafkaOffsets.RebalanceStep(s, change);
    } else {
      KafkaOffsets.RequestStep(s, change);
    }
    hide KafkaOffsets.Inv, KafkaOffsets.Enabled, KafkaOffsets.Fenced, KafkaOffsets.Apply;
  }

  lemma AcquireShape(s: State, l: nat, limit: int)
    requires Enabled(s, Acquire(l, limit))
    ensures var t, lane := Apply(s, Acquire(l, limit)), s.lanes.lanes[l];
            && l < |t.lanes.lanes| && t.gathered == s.gathered
            && t.lanes.lanes == s.lanes.lanes[l := lane.(pc := t.lanes.lanes[l].pc)]
            && (if KafkaLanes.Permit(t.lanes.lanes[l].pc)
                then t.requests == s.requests[l := KafkaOffsets.Request(lane.pc.record.tp, lane.pc.record.offset, s.offsets.Epoch(lane.pc.record.tp))]
                     && t.offsets == KafkaOffsets.Apply(s.offsets, KafkaOffsets.Begin(lane.pc.record.tp, lane.pc.record.offset))
                else t.requests == s.requests && t.offsets == s.offsets)
  {
  }

  /** One lane moves on, and captures the current epoch if it got its place. */
  lemma PlaceKeepsNewer(s: State, t: State, l: nat, tp: TopicPartition, e: nat)
    requires OnlyNewer(s, tp, e) && l < |s.lanes.lanes| == |t.lanes.lanes| && !Dead(s.lanes.lanes[l].pc)
    requires t.lanes.lanes == s.lanes.lanes[l := s.lanes.lanes[l].(pc := t.lanes.lanes[l].pc)]
    requires KafkaOffsets.Fenced(t.offsets, tp, e) && t.offsets.Epoch(tp) == s.offsets.Epoch(tp)
    requires forall k <- s.requests :: k != l ==> k in t.requests && t.requests[k] == s.requests[k]
    requires KafkaLanes.Permit(t.lanes.lanes[l].pc) && s.lanes.lanes[l].tp == tp ==>
               l in t.requests && t.requests[l].tp == tp && t.requests[l].epoch == s.offsets.Epoch(tp)
    ensures OnlyNewer(t, tp, e)
  {
    assert forall k :: 0 <= k < |s.lanes.lanes| && k != l ==> t.lanes.lanes[k] == s.lanes.lanes[k];
    hide KafkaOffsets.Fenced;
  }

  lemma OwnRecord(s: KafkaLanes.State, l: nat)
    requires LanesOk(s) && l < |s.lanes| && s.lanes[l].pc.Acquiring?
    ensures s.lanes[l].pc.record.tp == s.lanes[l].tp
  {
  }

  /** A lane that gets its place captures the current epoch of its partition. */
  lemma AcquireKeepsNewer(s: State, l: nat, limit: int, tp: TopicPartition, e: nat)
    requires Inv(s) && Enabled(s, Acquire(l, limit)) && OnlyNewer(s, tp, e)
    ensures OnlyNewer(Apply(s, Acquire(l, limit)), tp, e)
  {
    var r := s.lanes.lanes[l].pc.record;
    AcquireShape(s, l, limit);
    OwnRecord(s.lanes, l);
    assert KafkaOffsets.Fenced(s.offsets, tp, e);
    OffsetsGoOn(s.offsets, KafkaOffsets.Begin(r.tp, r.offset), tp, e);
    KafkaOffsets.RequestStep(s.offsets, KafkaOffsets.Begin(r.tp, r.offset));
    assert !Dead(s.lanes.lanes[l].pc);
    hide KafkaOffsets.Inv, LanesOk, Gathers, OnlyNewer, Apply, KafkaOffsets.Apply, KafkaOffsets.Fenced, Enabled;
    PlaceKeepsNewer(s, Apply(s, Acquire(l, limit)), l, tp, e);
  }

  lemma {:induction false} StepKeepsNewer(s: State, e: Event, tp: TopicPartition, epoch: nat)
    requires Inv(s) && Enabled(s, e) && OnlyNewer(s, tp, epoch)
    ensures OnlyNewer(Apply(s, e), tp, epoch)
  {
    assert KafkaOffsets.Fenced(s.offsets, tp, epoch);
    hide KafkaOffsets.Inv, LanesOk, LanesGrow, NoNewPlace, Gathers, OnlyNewer, KafkaLanes.Apply, KafkaOffsets.Apply;
    match e
    case Arrive(r) =>
      LanesStep(s.lanes, KafkaLanes.Arrive(r, s.offsets.Live(r.tp)));
      LanesKeepNewer(s, Apply(s, e), tp, epoch, Admits(KafkaLanes.Arrive(r, s.offsets.Live(r.tp))));
    case Acquire(l, limit) => AcquireKeepsNewer(s, l, limit, tp, epoch);
    case InLanes(step) =>
      LanesStep(s.lanes, step);
      LanesKeepNewer(s, Apply(s, e), tp, epoch, {});
    case InOffsets(change) =>
      OffsetsGoOn(s.offsets, change, tp, epoch);
      OffsetsKeepNewer(s, Apply(s, e), tp, epoch);
    case Revoke(order) =>
      OffsetsGoOn(s.offsets, KafkaOffsets.RevokeBegin(PartsOf(order)), tp, epoch);
      CancelAllSteps(s.lanes, order);
      var between := s.(lanes := CancelAll(s.lanes, order));
      LanesKeepNewer(s, between, tp, epoch, {});
      OffsetsKeepNewer(between, Apply(s, e), tp, epoch);
    case RevokeDone =>
      OffsetsGoOn(s.offsets, KafkaOffsets.RevokeEnd, tp, epoch);
      OffsetsKeepNewer(s, Apply(s, e), tp, epoch);
  }

  /** At the return itself. */
  lemma RevokedIsNewer(s: State, tp: TopicPartition)
    requires Inv(s) && Enabled(s, RevokeDone) && tp in s.offsets.rebalance.parts
    ensures OnlyNewer(Apply(s, RevokeDone), tp, s.offsets.Epoch(tp))
    ensures Apply(s, RevokeDone).offsets.Epoch(tp) == s.offsets.Epoch(tp)
  {
  }

  /** Once a revocation has returned, whatever runs for its partition belongs to a newer assignment, over any
      number of later cycles: a lane lives only after the partition's epoch has moved on, and every handler
      call in flight captured an epoch newer than the revoked one. */
  lemma {:induction false} RevocationFencesLanes(restoring: bool, prefetch: nat, later: Run<Event>, earlier: Run<Event>, tp: TopicPartition)
    requires Extends(later, earlier) && RevokedNow(restoring, prefetch, earlier, tp)
    ensures OnlyNewer(StateOf(restoring, prefetch, later), tp, StateOf(restoring, prefetch, earlier).offsets.Epoch(tp))
  {
    hide Apply, Inv, OnlyNewer;
    if later == earlier {
      InvHolds(restoring, prefetch, earlier.before);
      RevokedIsNewer(StateOf(restoring, prefetch, earlier.before), tp);
    } else {
      RevocationFencesLanes(restoring, prefetch, later.before, earlier, tp);
      InvHolds(restoring, prefetch, later.before);
      var s := StateOf(restoring, prefetch, later.before);
      if Enabled(s, later.event) {
        StepKeepsNewer(s, later.event, tp, StateOf(restoring, prefetch, earlier).offsets.Epoch(tp));
      }
    }
  }

  // ---------------------------------------------------------------------------
  // The two parts run their own protocols
  // ---------------------------------------------------------------------------

  function OffsetEvents(s: State, e: Event): seq<KafkaOffsets.Event> {
    if !Enabled(s, e) then []
    else match e
      case Acquire(l, _) =>
        var r := s.lanes.lanes[l].pc.record;
        if KafkaLanes.Permit(Apply(s, e).lanes.lanes[l].pc) then [KafkaOffsets.Begin(r.tp, r.offset)] else []
      case InOffsets(change) => [change]
      case Revoke(order) => [KafkaOffsets.RevokeBegin(PartsOf(order))]
      case RevokeDone => [KafkaOffsets.RevokeEnd]
      case _ => []
  }

  ghost function OffsetsRun(restoring: bool, prefetch: nat, run: Run<Event>): Run<KafkaOffsets.Event> {
    if run.Start? then Runs.Start
    else
      var before := OffsetsRun(restoring, prefetch, run.before);
      var es := OffsetEvents(StateOf(restoring, prefetch, run.before), run.event);
      if es == [] then before else Then(before, es[0])
  }

  lemma OffsetsStep(s: State, e: Event)
    requires Enabled(s, e)
    ensures var es := OffsetEvents(s, e);
            if es == [] then Apply(s, e).offsets == s.offsets
            else KafkaOffsets.Enabled(s.offsets, es[0]) && Apply(s, e).offsets == KafkaOffsets.Apply(s.offsets, es[0])
  {
    if e.Acquire? {
      AcquireShape(s, e.lane, e.limit);
    }
    hide KafkaOffsets.Apply, KafkaLanes.Apply;
  }

  /** The offsets of the whole source are in a state that their own protocol reaches. */
  lemma {:induction false} OffsetsRefine(restoring: bool, prefetch: nat, run: Run<Event>)
    ensures StateOf(restoring, prefetch, run).offsets == KafkaOffsets.StateOf(restoring, OffsetsRun(restoring, prefetch, run))
  {
    hide Apply, KafkaOffsets.Apply, KafkaOffsets.Enabled, Enabled, OffsetEvents;
    if run.Then? {
      OffsetsRefine(restoring, prefetch, run.before);
      var s := StateOf(restoring, prefetch, run.before);
      if Enabled(s, run.event) {
        OffsetsStep(s, run.event);
      } else {
        NoOffsetEvents(s, run.event);
      }
    }
  }

  lemma NoOffsetEvents(s: State, e: Event)
    requires !Enabled(s, e)
    ensures OffsetEvents(s, e) == []
  {
  }

  ghost function Cancels(run: Run<KafkaLanes.Event>, order: seq<TopicPartition>): Run<KafkaLanes.Event> {
    if order == [] then run else Then(Cancels(run, order[..|order| - 1]), KafkaLanes.CancelLane(order[|order| - 1]))
  }

  ghost function LanesRun(restoring: bool, prefetch: nat, run: Run<Event>): Run<KafkaLanes.Event> {
    if run.Start? then Runs.Start
    else
      var before, s := LanesRun(restoring, prefetch, run.before), StateOf(restoring, prefetch, run.before);
      if !Enabled(s, run.event) then before
      else match run.event
        case Arrive(r) => Then(before, KafkaLanes.Arrive(r, s.offsets.Live(r.tp)))
        case Acquire(l, limit) => Then(before, KafkaLanes.TryAcquire(l, limit))
        case InLanes(step) => Then(before, step)
        case Revoke(order) => Cancels(before, order)
        case _ => before
  }

  lemma {:induction false} CancelsRefine(prefetch: nat, run: Run<KafkaLanes.Event>, order: seq<TopicPartition>)
    ensures KafkaLanes.StateOf(prefetch, Cancels(run, order)) == CancelAll(KafkaLanes.StateOf(prefetch, run), order)
    ensures Extends(Cancels(run, order), run)
  {
    hide KafkaLanes.Apply, KafkaLanes.Enabled;
    if order != [] {
      CancelsRefine(prefetch, run, order[..|order| - 1]);
    }
  }

  /** So are its lanes. */
  lemma {:induction false} LanesRefine(restoring: bool, prefetch: nat, run: Run<Event>)
    ensures StateOf(restoring, prefetch, run).lanes == KafkaLanes.StateOf(prefetch, LanesRun(restoring, prefetch, run))
    ensures run.Then? ==> Extends(LanesRun(restoring, prefetch, run), LanesRun(restoring, prefetch, run.before))
  {
    hide KafkaLanes.Apply, KafkaLanes.Enabled, KafkaOffsets.Apply, KafkaOffsets.Enabled;
    if run.Then? {
      LanesRefine(restoring, prefetch, run.before);
      if run.event.Revoke? {
        CancelsRefine(prefetch, LanesRun(restoring, prefetch, run.before), run.event.order);
      }
      if run.event.Acquire? && Enabled(StateOf(restoring, prefetch, run.before), run.event) {
        AcquireLanes(StateOf(restoring, prefetch, run.before), run.event.lane, run.event.limit);
      }
    }
  }

  lemma AcquireLanes(s: State, l: nat, limit: int)
    requires Enabled(s, Acquire(l, limit))
    ensures Apply(s, Acquire(l, limit)).lanes == KafkaLanes.Apply(s.lanes, KafkaLanes.TryAcquire(l, limit))
  {
    hide KafkaOffsets.Apply;
  }

  lemma {:induction false} LanesRunExtends(restoring: bool, prefetch: nat, later: Run<Event>, earlier: Run<Event>)
    requires Extends(later, earlier)
    ensures Extends(LanesRun(restoring, prefetch, later), LanesRun(restoring, prefetch, earlier))
  {
    if later != earlier {
      LanesRunExtends(restoring, prefetch, later.before, earlier);
      LanesRefine(restoring, prefetch, later);
      ExtendsFurther(LanesRun(restoring, prefetch, later), LanesRun(restoring, prefetch, later.before), LanesRun(restoring, prefetch, earlier));
    }
  }

  // ---------------------------------------------------------------------------
  // What arrives, begins and returns
  // ---------------------------------------------------------------------------

  /** An arriving record is queued if and only if the source is not stopped and, with checkpoints, its partition
      is assigned and no restoration failed. */
  lemma ArrivalIsQueuedIff(restoring: bool, prefetch: nat, run: Run<Event>, r: KafkaLanes.Record)
    requires Enabled(StateOf(restoring, prefetch, run), Arrive(r))
    ensures var s, offsets := StateOf(restoring, prefetch, run), OffsetsRun(restoring, prefetch, run);
            var admitted := !restoring || (KafkaOffsets.Assigned(restoring, offsets, r.tp) && !KafkaOffsets.HasFailed(restoring, offsets));
            KafkaLanes.Queue(Apply(s, Arrive(r)).lanes, r.tp) ==
            KafkaLanes.Queue(s.lanes, r.tp)
            + if admitted && !KafkaLanes.HasStopped(LanesRun(restoring, prefetch, run)) then [r] else []
  {
    var s, lanes := StateOf(restoring, prefetch, run), LanesRun(restoring, prefetch, run);
    OffsetsRefine(restoring, prefetch, run);
    LanesRefine(restoring, prefetch, run);
    KafkaOffsets.LiveIff(restoring, OffsetsRun(restoring, prefetch, run), r.tp);
    KafkaLanes.StoppedIff(prefetch, lanes);
    hide StateOf, KafkaLanes.StateOf, KafkaOffsets.StateOf, KafkaOffsets.Assigned, KafkaOffsets.HasFailed, LanesRun, OffsetsRun;
    ArrivalQueues(s.lanes, r, s.offsets.Live(r.tp));
  }

  lemma ArrivalQueues(s: KafkaLanes.State, r: KafkaLanes.Record, admitted: bool)
    requires KafkaLanes.Enabled(s, KafkaLanes.Arrive(r, admitted))
    ensures KafkaLanes.Queue(KafkaLanes.Apply(s, KafkaLanes.Arrive(r, admitted)), r.tp) ==
            KafkaLanes.Queue(s, r.tp) + if admitted && !s.stopped then [r] else []
  {
  }

  /** A handler call begins a request of its record in the offsets and holds that request. */
  lemma HandlerHoldsItsRequest(restoring: bool, prefetch: nat, run: Run<Event>, l: nat, limit: int)
    requires Enabled(StateOf(restoring, prefetch, run), Acquire(l, limit))
    requires Apply(StateOf(restoring, prefetch, run), Acquire(l, limit)).lanes.lanes[l].pc.Handling?
    ensures var t, r := Apply(StateOf(restoring, prefetch, run), Acquire(l, limit)), StateOf(restoring, prefetch, run).lanes.lanes[l].pc.record;
            var begun := OffsetsRun(restoring, prefetch, Then(run, Acquire(l, limit)));
            && begun == Then(OffsetsRun(restoring, prefetch, run), KafkaOffsets.Begin(r.tp, r.offset))
            && l in t.requests && t.requests[l] == KafkaOffsets.BegunRequest(restoring, begun)
  {
    OffsetsRefine(restoring, prefetch, run);
    AcquireShape(StateOf(restoring, prefetch, run), l, limit);
    hide StateOf, KafkaOffsets.StateOf, KafkaOffsets.Apply, KafkaLanes.Apply;
  }

  /** The lanes that a revocation waits for are of its partitions. */
  ghost predicate WaitsForOwn(s: State) {
    s.offsets.rebalance.Revoking? ==>
      forall l <- s.gathered :: l < |s.lanes.lanes| && s.lanes.lanes[l].tp in s.offsets.rebalance.parts
  }

  lemma RevokeGathersOwn(s: State, order: seq<TopicPartition>)
    requires Inv(s) && Enabled(s, Revoke(order))
    ensures WaitsForOwn(Apply(s, Revoke(order)))
  {
    CancelAllSteps(s.lanes, order);
    assert forall tp <- s.lanes.tasks :: s.lanes.tasks[tp] < |s.lanes.lanes| && s.lanes.lanes[s.lanes.tasks[tp]].tp == tp;
    hide CancelAll, KafkaOffsets.Inv, LanesOk;
  }

  lemma GrowingWaitsForOwn(s: State, t: State, admitted: set<TopicPartition>)
    requires WaitsForOwn(s) && t.offsets.rebalance == s.offsets.rebalance && t.gathered == s.gathered
    requires LanesGrow(s.lanes, t.lanes, admitted)
    ensures WaitsForOwn(t)
  {
  }

  lemma OffsetsWaitForOwn(s: State, change: KafkaOffsets.Event)
    requires WaitsForOwn(s) && Enabled(s, InOffsets(change))
    ensures WaitsForOwn(Apply(s, InOffsets(change)))
  {
  }

  lemma {:induction false} StepWaitsForOwn(s: State, e: Event)
    requires Inv(s) && WaitsForOwn(s) && Enabled(s, e)
    ensures WaitsForOwn(Apply(s, e))
  {
    hide KafkaOffsets.Inv, LanesOk, LanesGrow, WaitsForOwn, Gathers, KafkaLanes.Apply, KafkaOffsets.Apply, KafkaLanes.Enabled;
    match e
    case Arrive(r) =>
      LanesStep(s.lanes, KafkaLanes.Arrive(r, s.offsets.Live(r.tp)));
      GrowingWaitsForOwn(s, Apply(s, e), Admits(KafkaLanes.Arrive(r, s.offsets.Live(r.tp))));
    case Acquire(l, limit) =>
      LanesStep(s.lanes, KafkaLanes.TryAcquire(l, limit));
      AcquireWaitsOn(s, l, limit);
      AcquireLanes(s, l, limit);
      GrowingWaitsForOwn(s, Apply(s, e), {});
    case InLanes(step) =>
      LanesStep(s.lanes, step);
      GrowingWaitsForOwn(s, Apply(s, e), {});
    case InOffsets(change) => OffsetsWaitForOwn(s, change);
    case Revoke(order) => RevokeGathersOwn(s, order);
    case RevokeDone =>
      RevokeEndSettles(s.offsets);
      SettledWaitsForNone(Apply(s, e));
  }

  lemma AcquireWaitsOn(s: State, l: nat, limit: int)
    requires Enabled(s, Acquire(l, limit))
    ensures var t := Apply(s, Acquire(l, limit));
            t.offsets.rebalance == s.offsets.rebalance && t.gathered == s.gathered
  {
    hide KafkaLanes.Apply;
  }

  lemma SettledWaitsForNone(s: State)
    requires s.offsets.rebalance.Settled?
    ensures WaitsForOwn(s)
  {
  }

  lemma {:induction false} WaitsForOwnHolds(restoring: bool, prefetch: nat, run: Run<Event>)
    ensures WaitsForOwn(StateOf(restoring, prefetch, run))
  {
    hide Apply, Enabled, Inv;
    if run.Then? {
      WaitsForOwnHolds(restoring, prefetch, run.before);
      InvHolds(restoring, prefetch, run.before);
      if Enabled(StateOf(restoring, prefetch, run.before), run.event) {
        StepWaitsForOwn(StateOf(restoring, prefetch, run.before), run.event);
      }
    }
  }

  /** A revocation returns exactly when no lane of its partitions lives and the commit lock is free; lanes of
      other partitions do not hold it up. */
  lemma RevocationReturnsIff(restoring: bool, prefetch: nat, run: Run<Event>)
    ensures var s := StateOf(restoring, prefetch, run);
            Enabled(s, RevokeDone) <==>
            s.offsets.rebalance.Revoking? && s.offsets.holder.Free? && forall tp <- s.offsets.rebalance.parts :: Quiet(s, tp)
  {
    InvHolds(restoring, prefetch, run);
    WaitsForOwnHolds(restoring, prefetch, run);
    var s := StateOf(restoring, prefetch, run);
    hide KafkaOffsets.Inv, LanesOk, StateOf;
    if s.offsets.rebalance.Revoking? && (forall tp <- s.offsets.rebalance.parts :: Quiet(s, tp)) {
      forall l | l in s.gathered ensures l < |s.lanes.lanes| && Dead(s.lanes.lanes[l].pc) {
        assert Quiet(s, s.lanes.lanes[l].tp);
      }
    }
  }

  // ---------------------------------------------------------------------------
  // The stranded partition, across a whole rebalance
  // ---------------------------------------------------------------------------

  /** A partition whose lane was lost stays unserved, also when it is assigned again. */
  lemma LostLaneIsNeverReplaced(restoring: bool, prefetch: nat, later: Run<Event>, earlier: Run<Event>, tp: TopicPartition)
    requires Extends(later, earlier) && KafkaLanes.LaneLost(prefetch, LanesRun(restoring, prefetch, earlier), tp)
    ensures KafkaLanes.Stranded(StateOf(restoring, prefetch, later).lanes, tp)
    ensures KafkaLanes.Taken(prefetch, LanesRun(restoring, prefetch, later), tp)
            == KafkaLanes.Taken(prefetch, LanesRun(restoring, prefetch, earlier), tp)
  {
    LanesRunExtends(restoring, prefetch, later, earlier);
    LanesRefine(restoring, prefetch, later);
    var l := LanesRun(restoring, prefetch, later);
    KafkaLanes.StrandedForever(prefetch, l, LanesRun(restoring, prefetch, earlier), tp);
    KafkaLanes.OwnerLostIff(prefetch, l, tp);
    KafkaLanes.StrandedIffCancelledBeforeStart(prefetch, l, tp);
  }

  ghost function AssignRun(run: Run<Event>, tp: TopicPartition): Run<Event> {
    Then(Then(run, InOffsets(KafkaOffsets.AssignBegin({tp}, true))), InOffsets(KafkaOffsets.AssignConfirmed(map[tp := 0])))
  }

  /** A record arrives and its partition is revoked before the lane has run. */
  ghost function RevokedRun(tp: TopicPartition): Run<Event> {
    Then(Then(Then(AssignRun(Start, tp), Arrive(KafkaLanes.Record(tp, 0))), Revoke([tp])), RevokeDone)
  }

  lemma OneStep(run: Run<Event>, s: State, e: Event)
    requires StateOf(true, 1, run) == s && Enabled(s, e)
    ensures StateOf(true, 1, Then(run, e)) == Apply(s, e)
  {
    hide Enabled, Apply;
  }

  function AssignedOnce(tp: TopicPartition): KafkaOffsets.State {
    KafkaOffsets.State(true, map[tp := 0], {tp}, map[tp := 1], false, map[tp := 0], {}, KafkaOffsets.Free, KafkaOffsets.Settled)
  }

  /** The steps of an assignment of one partition at offset 0. */
  lemma AssignSteps(s: KafkaOffsets.State, tp: TopicPartition)
    requires s.restoring && !s.failed && s.rebalance.Settled? && s.holder.Free? && s.assignment <= {tp} && s.epochs.Keys <= {tp}
    requires s.marked.Keys <= {tp} && s.position.Keys <= {tp}
    ensures var begin := KafkaOffsets.AssignBegin({tp}, true);
            && KafkaOffsets.Enabled(s, begin)
            && var t := KafkaOffsets.Apply(s, begin);
               var confirm := KafkaOffsets.AssignConfirmed(map[tp := 0]);
               && KafkaOffsets.Enabled(t, confirm)
               && KafkaOffsets.Apply(t, confirm) ==
                  s.(assignment := {tp}, epochs := map[tp := s.Epoch(tp) + 1], marked := map[tp := 0], position := map[tp := 0])
  {
    var t := KafkaOffsets.Apply(s, KafkaOffsets.AssignBegin({tp}, true));
    assert t.assignment + {tp} == {tp};
    assert KafkaOffsets.Bumped(t, {tp}) == map[tp := s.Epoch(tp) + 1];
    assert t.marked + map[tp := 0] == map[tp := 0] && t.position + map[tp := 0] == map[tp := 0];
  }

  lemma RevokeSteps(tp: TopicPartition)
    ensures var begin, s := KafkaOffsets.RevokeBegin({tp}), AssignedOnce(tp);
            && KafkaOffsets.Enabled(s, begin)
            && var t := KafkaOffsets.Apply(s, begin);
               && KafkaOffsets.Enabled(t, KafkaOffsets.RevokeEnd)
               && KafkaOffsets.Apply(t, KafkaOffsets.RevokeEnd) == s.(assignment := {}, epochs := map[tp := 2], marked := map[])
  {
    var s := AssignedOnce(tp);
    assert s.assignment - {tp} == {};
    assert KafkaOffsets.Bumped(s, {tp}) == map[tp := 2];
    assert s.marked - {tp} == map[];
  }

  function LanesWith(tp: TopicPartition, pc: KafkaLanes.Pc): KafkaLanes.State {
    KafkaLanes.State([KafkaLanes.Lane(tp, [KafkaLanes.Record(tp, 0)], pc)], map[tp := 0], map[tp := 0], {tp}, 0, false, 1)
  }

  lemma LaneSteps(tp: TopicPartition)
    ensures var arrive, s := KafkaLanes.Arrive(KafkaLanes.Record(tp, 0), true), KafkaLanes.Initial(1);
            KafkaLanes.Enabled(s, arrive) && KafkaLanes.Apply(s, arrive) == LanesWith(tp, KafkaLanes.Created)
    ensures PartsOf([tp]) == {tp} && TasksOf(LanesWith(tp, KafkaLanes.Created), {tp}) == {0}
    ensures var lost := LanesWith(tp, KafkaLanes.Lost);
            && CancelAll(LanesWith(tp, KafkaLanes.Created), [tp]) == lost && AllDead(lost, {0})
            && KafkaLanes.Queue(lost, tp) == [KafkaLanes.Record(tp, 0)] && KafkaLanes.Stranded(lost, tp)
  {
    var open := LanesWith(tp, KafkaLanes.Created);
    assert CancelAll(open, []) == open;
    assert [tp][..0] == [];
  }

  lemma {:induction false} AssignReaches(run: Run<Event>, s: State, tp: TopicPartition)
    requires StateOf(true, 1, run) == s
    requires var o := s.offsets;
             && o.restoring && !o.failed && o.rebalance.Settled? && o.holder.Free? && o.assignment <= {tp}
             && o.epochs.Keys <= {tp} && o.marked.Keys <= {tp} && o.position.Keys <= {tp}
    ensures var o := s.offsets;
            StateOf(true, 1, AssignRun(run, tp)) == s.(offsets :=
              o.(assignment := {tp}, epochs := map[tp := o.Epoch(tp) + 1], marked := map[tp := 0], position := map[tp := 0]))
  {
    var begin, confirm := KafkaOffsets.AssignBegin({tp}, true), KafkaOffsets.AssignConfirmed(map[tp := 0]);
    AssignSteps(s.offsets, tp);
    hide KafkaOffsets.Apply, KafkaOffsets.Enabled, StateOf;
    OneStep(run, s, InOffsets(begin));
    OneStep(Then(run, InOffsets(begin)), s.(offsets := KafkaOffsets.Apply(s.offsets, begin)), InOffsets(confirm));
  }

  lemma {:induction false} ArrivedState(tp: TopicPartition)
    ensures StateOf(true, 1, RevokedRun(tp).before.before) ==
            State(AssignedOnce(tp), LanesWith(tp, KafkaLanes.Created), {}, map[])
  {
    AssignReaches(Start, Initial(true, 1), tp);
    LaneSteps(tp);
    hide KafkaOffsets.Apply, KafkaLanes.Apply, KafkaLanes.Enabled, StateOf, LanesWith, CancelAll;
    OneStep(AssignRun(Start, tp), State(AssignedOnce(tp), KafkaLanes.Initial(1), {}, map[]), Arrive(KafkaLanes.Record(tp, 0)));
  }

  lemma {:induction false} RevokedState(tp: TopicPartition)
    ensures StateOf(true, 1, RevokedRun(tp)) ==
            State(AssignedOnce(tp).(assignment := {}, epochs := map[tp := 2], marked := map[]),
                  LanesWith(tp, KafkaLanes.Lost), {0}, map[])
  {
    ArrivedState(tp);
    LaneSteps(tp);
    RevokeSteps(tp);
    hide KafkaOffsets.Apply, KafkaLanes.Apply, CancelAll, KafkaOffsets.Enabled, KafkaLanes.Enabled, StateOf, TasksOf, AllDead, PartsOf, LanesWith;
    var run, s := RevokedRun(tp).before.before, State(AssignedOnce(tp), LanesWith(tp, KafkaLanes.Created), {}, map[]);
    OneStep(run, s, Revoke([tp]));
    var t := State(KafkaOffsets.Apply(s.offsets, KafkaOffsets.RevokeBegin({tp})), LanesWith(tp, KafkaLanes.Lost), {0}, map[]);
    OneStep(Then(run, Revoke([tp])), t, RevokeDone);
  }

  /** The lane is lost while it still has its record, so the partition stays stranded when it is assigned again. */
  lemma {:induction false} RevokeBeforeFirstStepStrands(tp: TopicPartition)
    ensures var s := StateOf(true, 1, AssignRun(RevokedRun(tp), tp));
            && s.offsets.Live(tp) && s.offsets.rebalance.Settled?
            && KafkaLanes.Queue(s.lanes, tp) == [KafkaLanes.Record(tp, 0)] && KafkaLanes.Stranded(s.lanes, tp)
  {
    RevokedState(tp);
    LaneSteps(tp);
    hide KafkaLanes.Stranded, KafkaLanes.Queue, LanesWith, StateOf, CancelAll;
    AssignReaches(RevokedRun(tp), StateOf(true, 1, RevokedRun(tp)), tp);
  }

  // ---------------------------------------------------------------------------
  // The rebalance callback
  // ---------------------------------------------------------------------------

  /** The revocation callback over the consumer's two parts, up to its wait for the cancelled lanes. */
  class RebalanceCallback {
    const consumer: KafkaOffsets.EndpointConsumer
    const scheduler: KafkaLanes.Scheduler
    var gathered: set<nat>
    var requests: map<nat, KafkaOffsets.Request>

    constructor (consumer: KafkaOffsets.EndpointConsumer, scheduler: KafkaLanes.Scheduler)
      ensures this.consumer == consumer && this.scheduler == scheduler
      ensures View() == State(consumer.View(), scheduler.View(), {}, map[])
    {
      this.consumer, this.scheduler := consumer, scheduler;
      gathered, requests := {}, map[];
    }

    function View(): State
      reads this, consumer, scheduler
    {
      State(consumer.View(), scheduler.View(), gathered, requests)
    }

    /** Close admission and raise the epochs, cancel each partition's lane, and keep its task to wait for. */
    method BeginRevoke(order: seq<TopicPartition>)
      requires Enabled(View(), Revoke(order))
      modifies this, consumer, scheduler
      ensures View() == Apply(old(View()), Revoke(order))
    {
      consumer.BeginRevoke(PartsOf(order));
      gathered := {};
      ghost var was := scheduler.View();
      for i := 0 to |order|
        invariant consumer.View() == KafkaOffsets.Apply(old(consumer.View()), KafkaOffsets.RevokeBegin(PartsOf(order)))
        invariant scheduler.View() == CancelAll(was, order[..i]) && scheduler.View().tasks == was.tasks
        invariant gathered == TasksOf(was, PartsOf(order[..i])) && requests == old(requests)
      {
        var tp := order[i];
        CancelNext(was, order, i);
        if tp in scheduler.partitionTasks {
          var lane := scheduler.partitionTasks[tp];
          if lane < |scheduler.lanes| {
            scheduler.CancelPartition(tp);
          }
          gathered := gathered + {lane};
        }
      }
      assert order[..|order|] == order;
    }
  }

  lemma CancelNext(s: KafkaLanes.State, order: seq<TopicPartition>, i: nat)
    requires i < |order|
    ensures CancelAll(s, order[..i + 1]) == CancelOne(CancelAll(s, order[..i]), order[i])
    ensures CancelOne(CancelAll(s, order[..i]), order[i]).tasks == CancelAll(s, order[..i]).tasks
    ensures PartsOf(order[..i + 1]) == PartsOf(order[..i]) + {order[i]}
    ensures TasksOf(s, PartsOf(order[..i + 1])) ==
            TasksOf(s, PartsOf(order[..i])) + if order[i] in s.tasks then {s.tasks[order[i]]} else {}
  {
    assert order[..i + 1][..i] == order[..i];
    assert order[..i + 1] == order[..i] + [order[i]];
  }
}
