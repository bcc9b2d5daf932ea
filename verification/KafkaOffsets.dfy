/** Offsets of the Kafka source: marks, the flusher, manual commits and checkpoint rebalances.

    Marks take no lock.  The flusher and the manual commit hold the commit lock across the broker
    call, and a rebalance callback takes the lock for its last step only.  The rebalance callbacks
    themselves never overlap, because the client awaits one before it starts the next. */
module KafkaOffsets {
  import opened KafkaTypes
  import opened Runs

  /** What the closures handed to one handler call remember: the record and the epoch at its start. */
  datatype Request = Request(tp: TopicPartition, offset: int, epoch: nat)

  /** Who holds the commit lock while suspended in the broker's commit. */
  datatype Holder =
    | Free
    | Flushing(snapshot: map<TopicPartition, int>)
    | Committing(request: Request)

  /** Where the rebalance callback is suspended. */
  datatype Rebalance =
    | Settled
    | Revoking(parts: set<TopicPartition>)
    | Restoring(parts: set<TopicPartition>)

  datatype State = State(
    restoring: bool,
    marked: map<TopicPartition, int>,
    assignment: set<TopicPartition>,
    epochs: map<TopicPartition, nat>,
    failed: bool,
    position: map<TopicPartition, int>,
    captured: set<Request>,
    holder: Holder,
    rebalance: Rebalance)
  {
    function Epoch(tp: TopicPartition): nat {
      if tp in epochs then epochs[tp] else 0
    }

    /** Requests that start now on this partition may mark and commit. */
    predicate Live(tp: TopicPartition) {
      !restoring || (!failed && tp in assignment)
    }

    /** The guard the mark and commit closures evaluate. */
    predicate Current(r: Request) {
      !restoring || (Live(r.tp) && Epoch(r.tp) == r.epoch)
    }
  }

  function Initial(restoring: bool): State {
    State(restoring, map[], {}, map[], false, map[], {}, Free, Settled)
  }

  datatype Event =
    | Begin(tp: TopicPartition, offset: int)
    | Mark(request: Request)
    | CommitBegin(request: Request)
    | CommitEnd(ok: bool)
    | FlushBegin
    | FlushEnd(ok: bool)
    | RevokeBegin(parts: set<TopicPartition>)
    | RevokeEnd
    | RevokeCancelled
    | AssignBegin(parts: set<TopicPartition>, ownerActive: bool)
    | AssignConfirmed(offsets: map<TopicPartition, int>)
    | AssignFailed(seeked: map<TopicPartition, int>)

  predicate Enabled(s: State, e: Event) {
    match e
    case Begin(_, _) => true
    case Mark(r) => r in s.captured
    case CommitBegin(r) => r in s.captured && s.holder.Free?
    case CommitEnd(_) => s.holder.Committing?
    case FlushBegin => s.holder.Free? && s.marked != map[]
    case FlushEnd(_) => s.holder.Flushing?
    case RevokeBegin(_) => s.restoring && s.rebalance.Settled?
    case RevokeEnd => s.rebalance.Revoking? && s.holder.Free?
    case RevokeCancelled => s.rebalance.Revoking?
    case AssignBegin(_, _) => s.restoring && s.rebalance.Settled?
    case AssignConfirmed(offsets) =>
      s.rebalance.Restoring? && offsets.Keys == s.rebalance.parts && (offsets != map[] ==> s.holder.Free?)
    case AssignFailed(seeked) =>
      s.rebalance.Restoring? && seeked.Keys <= s.rebalance.parts && (seeked != map[] ==> s.holder.Free?)
  }

  function Bumped(s: State, parts: set<TopicPartition>): map<TopicPartition, nat> {
    map tp | tp in s.epochs.Keys + parts :: if tp in parts then s.Epoch(tp) + 1 else s.Epoch(tp)
  }

  /** The pending map after marking offset `o` as the next one to read. */
  function WithMark(marked: map<TopicPartition, int>, tp: TopicPartition, o: int): map<TopicPartition, int> {
    marked[tp := if tp in marked && marked[tp] > o then marked[tp] else o]
  }

  /** The pending map after the broker accepted `snapshot`: only what it covers is dropped. */
  function WithoutCovered(marked: map<TopicPartition, int>, snapshot: map<TopicPartition, int>): map<TopicPartition, int> {
    map tp | tp in marked && !(tp in snapshot && marked[tp] <= snapshot[tp]) :: marked[tp]
  }

  function Apply(s: State, e: Event): State
    requires Enabled(s, e)
  {
    match e
    case Begin(tp, offset) => s.(captured := s.captured + {Request(tp, offset, s.Epoch(tp))})
    case Mark(r) =>
      if s.Current(r) then s.(marked := WithMark(s.marked, r.tp, r.offset + 1)) else s
    case CommitBegin(r) =>
      if s.Current(r) then s.(holder := Committing(r)) else s
    case CommitEnd(_) => s.(holder := Free)
    case FlushBegin => s.(holder := Flushing(s.marked))
    case FlushEnd(ok) =>
      s.(holder := Free, marked := if ok then WithoutCovered(s.marked, s.holder.snapshot) else s.marked)
    case RevokeBegin(parts) =>
      s.(assignment := s.assignment - parts, epochs := Bumped(s, parts), rebalance := Revoking(parts))
    case RevokeEnd => s.(marked := s.marked - s.rebalance.parts, rebalance := Settled)
    case RevokeCancelled => s.(rebalance := Settled)
    case AssignBegin(parts, ownerActive) =>
      if s.failed then s.(assignment := s.assignment - parts)
      else if !ownerActive then s.(assignment := {}, failed := true)
      else s.(assignment := s.assignment - parts, rebalance := Restoring(parts))
    case AssignConfirmed(offsets) =>
      s.(assignment := s.assignment + offsets.Keys, epochs := Bumped(s, offsets.Keys),
      marked := s.marked + offsets, position := s.position + offsets, rebalance := Settled)
    case AssignFailed(seeked) =>
      s.(assignment := {}, epochs := Bumped(s, seeked.Keys), marked := s.marked + seeked,
      position := s.position + seeked, failed := true, rebalance := Settled)
  }

  // ---------------------------------------------------------------------------
  // Runs
  // ---------------------------------------------------------------------------

  /** The state after a run.  An event whose guard does not hold cannot happen and changes nothing. */
  ghost function StateOf(m: bool, run: Run<Event>): State {
    if run.Start? then Initial(m)
    else
      var s := StateOf(m, run.before);
      if Enabled(s, run.event) then Apply(s, run.event) else s
  }

  /** The newest event marked `o` for `tp` in epoch `e` and the mark took effect. */
  ghost predicate Marks(m: bool, run: Run<Event>, tp: TopicPartition, e: nat, o: int) {
    run.Then? && run.event.Mark? &&
    var s, r := StateOf(m, run.before), run.event.request;
    Enabled(s, run.event) && s.Current(r) && r.tp == tp && r.offset + 1 == o && s.Epoch(tp) == e
  }

  /** The newest event restored `o` as the first offset of epoch `e`. */
  ghost predicate Restores(m: bool, run: Run<Event>, tp: TopicPartition, e: nat, o: int) {
    run.Then? && Enabled(StateOf(m, run.before), run.event) && StateOf(m, run).Epoch(tp) == e &&
    ((run.event.AssignConfirmed? && tp in run.event.offsets && run.event.offsets[tp] == o) ||
     (run.event.AssignFailed? && tp in run.event.seeked && run.event.seeked[tp] == o))
  }

  /** The newest event is the broker's acceptance, in epoch `e`, of a flush that carries `tp` at least to `o`. */
  ghost predicate Reaches(m: bool, run: Run<Event>, tp: TopicPartition, e: nat, o: int) {
    run.Then? && run.event == FlushEnd(true) &&
    var s := StateOf(m, run.before);
    Enabled(s, run.event) && tp in s.holder.snapshot && s.holder.snapshot[tp] >= o && s.Epoch(tp) == e
  }

  ghost predicate Accepted(m: bool, run: Run<Event>, tp: TopicPartition, e: nat, o: int) {
    run.Then? && (Accepted(m, run.before, tp, e, o) || Marks(m, run, tp, e, o))
  }

  ghost predicate Restored(m: bool, run: Run<Event>, tp: TopicPartition, e: nat, o: int) {
    run.Then? && (Restored(m, run.before, tp, e, o) || Restores(m, run, tp, e, o))
  }

  ghost predicate Sourced(m: bool, run: Run<Event>, tp: TopicPartition, e: nat, o: int) {
    Accepted(m, run, tp, e, o) || Restored(m, run, tp, e, o)
  }

  ghost predicate FlushedTo(m: bool, run: Run<Event>, tp: TopicPartition, e: nat, o: int) {
    run.Then? && (FlushedTo(m, run.before, tp, e, o) || Reaches(m, run, tp, e, o))
  }

  // ---------------------------------------------------------------------------
  // Invariant
  // ---------------------------------------------------------------------------

  ghost predicate Inv(s: State) {
    && (s.failed ==> s.restoring && s.assignment == {} && !s.rebalance.Restoring?)
    && (!s.restoring ==> s.rebalance.Settled? && s.epochs == map[])
    && (!s.rebalance.Settled? ==> s.rebalance.parts !! s.assignment)
    && (forall r <- s.captured :: r.epoch <= s.Epoch(r.tp))
    && (s.holder.Committing? ==> s.holder.request in s.captured)
  }

  predicate IsRebalance(e: Event) {
    e.RevokeBegin? || e.RevokeEnd? || e.RevokeCancelled? || e.AssignBegin? || e.AssignConfirmed? || e.AssignFailed?
  }

  lemma {:induction false} RequestStep(s: State, e: Event)
    requires Inv(s) && Enabled(s, e) && !IsRebalance(e)
    ensures Inv(Apply(s, e)) && Apply(s, e).restoring == s.restoring
    ensures Apply(s, e).epochs == s.epochs
  {
    hide WithMark, WithoutCovered, Bumped;
  }

  lemma {:induction false} RebalanceStep(s: State, e: Event)
    requires Inv(s) && Enabled(s, e) && IsRebalance(e)
    ensures Inv(Apply(s, e)) && Apply(s, e).restoring == s.restoring
    ensures forall tp :: s.Epoch(tp) <= Apply(s, e).Epoch(tp)
  {
  }

  lemma {:induction false} InvHolds(m: bool, run: Run<Event>)
    ensures Inv(StateOf(m, run)) && StateOf(m, run).restoring == m
    ensures run.Then? ==> forall tp :: StateOf(m, run.before).Epoch(tp) <= StateOf(m, run).Epoch(tp)
  {
    if run.Then? {
      InvHolds(m, run.before);
      var s := StateOf(m, run.before);
      if Enabled(s, run.event) {
        if IsRebalance(run.event) {
          RebalanceStep(s, run.event);
        } else {
          RequestStep(s, run.event);
        }
      }
    }
  }

  // ---------------------------------------------------------------------------
  // What the events decide
  // ---------------------------------------------------------------------------

  /** The newest event could happen. */
  ghost predicate Happens(m: bool, run: Run<Event>) {
    run.Then? && Enabled(StateOf(m, run.before), run.event)
  }

  /** The event revokes the partition, or seeks it for an assignment. */
  predicate Turns(e: Event, tp: TopicPartition) {
    match e
    case RevokeBegin(parts) => tp in parts
    case AssignConfirmed(offsets) => tp in offsets
    case AssignFailed(seeked) => tp in seeked
    case _ => false
  }

  /** How often the partition was revoked or assigned. */
  ghost function Turnings(m: bool, run: Run<Event>, tp: TopicPartition): nat {
    if run.Start? then 0 else Turnings(m, run.before, tp) + if Happens(m, run) && Turns(run.event, tp) then 1 else 0
  }

  /** A restoration failed, or found no active owner. */
  ghost predicate HasFailed(m: bool, run: Run<Event>) {
    run.Then? &&
    (HasFailed(m, run.before) ||
     (Happens(m, run) && (run.event.AssignFailed? || (run.event.AssignBegin? && !run.event.ownerActive))))
  }

  /** The partition was assigned, and since then neither listed in a rebalance nor lost by a failed restoration. */
  ghost predicate Assigned(m: bool, run: Run<Event>, tp: TopicPartition) {
    run.Then? &&
    if !Happens(m, run) then Assigned(m, run.before, tp)
    else match run.event
      case AssignConfirmed(offsets) => tp in offsets || Assigned(m, run.before, tp)
      case RevokeBegin(parts) => tp !in parts && Assigned(m, run.before, tp)
      case AssignBegin(parts, ownerActive) => ownerActive && tp !in parts && Assigned(m, run.before, tp)
      case AssignFailed(_) => false
      case _ => Assigned(m, run.before, tp)
  }

  /** The rebalance callback that began and has not ended. */
  ghost function Underway(m: bool, run: Run<Event>): Rebalance {
    if run.Start? then Settled
    else if !Happens(m, run) then Underway(m, run.before)
    else Turned(run.event, HasFailed(m, run.before), Underway(m, run.before))
  }

  /** The rebalance that an event leaves under way. */
  ghost function Turned(e: Event, failed: bool, before: Rebalance): Rebalance {
    match e
    case RevokeBegin(parts) => Revoking(parts)
    case AssignBegin(parts, ownerActive) => if ownerActive && !failed then Restoring(parts) else Settled
    case _ => if IsRebalance(e) then Settled else before
  }

  lemma {:induction false} EpochFollows(m: bool, run: Run<Event>, tp: TopicPartition)
    ensures StateOf(m, run).Epoch(tp) == Turnings(m, run, tp)
  {
    if run.Then? {
      hide Apply, Enabled, Turns;
      EpochFollows(m, run.before, tp);
      if Happens(m, run) {
        EpochStep(StateOf(m, run.before), run.event, tp);
      }
    }
  }

  lemma EpochStep(s: State, e: Event, tp: TopicPartition)
    requires Enabled(s, e)
    ensures Apply(s, e).Epoch(tp) == s.Epoch(tp) + if Turns(e, tp) then 1 else 0
  {
  }

  lemma {:induction false} FailureFollows(m: bool, run: Run<Event>)
    ensures StateOf(m, run).failed <==> HasFailed(m, run)
  {
    if run.Then? {
      hide Apply, Enabled;
      FailureFollows(m, run.before);
      if Happens(m, run) {
        FailureNow(StateOf(m, run.before), run.event);
      }
    }
  }

  lemma FailureNow(s: State, e: Event)
    requires Enabled(s, e)
    ensures Apply(s, e).failed <==> s.failed || e.AssignFailed? || (e.AssignBegin? && !e.ownerActive)
  {
  }

  lemma {:induction false} AssignmentFollows(m: bool, run: Run<Event>, tp: TopicPartition)
    ensures tp in StateOf(m, run).assignment <==> Assigned(m, run, tp)
  {
    if run.Then? {
      AssignmentFollows(m, run.before, tp);
      InvHolds(m, run.before);
    }
  }

  lemma {:induction false} RebalanceFollows(m: bool, run: Run<Event>)
    ensures StateOf(m, run).rebalance == Underway(m, run)
  {
    if run.Then? {
      hide Apply, Enabled, HasFailed;
      RebalanceFollows(m, run.before);
      FailureFollows(m, run.before);
      if Happens(m, run) {
        RebalanceNow(StateOf(m, run.before), run.event);
      }
    }
  }

  lemma RebalanceNow(s: State, e: Event)
    requires Enabled(s, e)
    ensures Apply(s, e).rebalance == Turned(e, s.failed, s.rebalance)
  {
    hide WithMark, WithoutCovered, Bumped;
  }

  /** The fields that decide admission are what the rebalance events make of them: a partition's epoch counts
      its revocations and assignments. */
  lemma AdmissionFollowsEvents(m: bool, run: Run<Event>, tp: TopicPartition)
    ensures var s := StateOf(m, run);
            && s.Epoch(tp) == Turnings(m, run, tp)
            && (tp in s.assignment <==> Assigned(m, run, tp))
            && (s.failed <==> HasFailed(m, run))
            && s.rebalance == Underway(m, run)
  {
    EpochFollows(m, run, tp);
    FailureFollows(m, run);
    AssignmentFollows(m, run, tp);
    RebalanceFollows(m, run);
  }

  /** Records of a partition are admitted always without checkpoints, and with them while it is assigned and no
      restoration failed. */
  lemma LiveIff(m: bool, run: Run<Event>, tp: TopicPartition)
    ensures StateOf(m, run).Live(tp) <==> !m || (Assigned(m, run, tp) && !HasFailed(m, run))
  {
    InvHolds(m, run);
    AdmissionFollowsEvents(m, run, tp);
    hide StateOf, Assigned, HasFailed;
  }

  /** A request of this partition, begun as the newest event of `begun`, may still mark and commit. */
  ghost predicate MayMark(m: bool, run: Run<Event>, begun: Run<Event>, tp: TopicPartition) {
    !m || (Assigned(m, run, tp) && !HasFailed(m, run) && Turnings(m, run, tp) == Turnings(m, begun, tp))
  }

  /** What the handler of a begun request holds. */
  ghost function BegunRequest(m: bool, begun: Run<Event>): Request
    requires begun.Then? && begun.event.Begin?
  {
    Request(begun.event.tp, begun.event.offset, StateOf(m, begun.before).Epoch(begun.event.tp))
  }

  lemma {:induction false} CapturedStays(m: bool, run: Run<Event>, begun: Run<Event>)
    requires Extends(run, begun) && begun.Then? && begun.event.Begin?
    ensures BegunRequest(m, begun) in StateOf(m, run).captured
  {
    if run != begun {
      hide Apply, Enabled;
      CapturedStays(m, run.before, begun);
      if Happens(m, run) {
        LockAndCapturesStay(StateOf(m, run.before), run.event);
      }
    }
  }

  lemma LockAndCapturesStay(s: State, e: Event)
    requires Enabled(s, e)
    ensures s.captured <= Apply(s, e).captured
    ensures s.holder.Flushing? && !e.FlushEnd? ==> Apply(s, e).holder == s.holder
  {
  }

  lemma CurrentIff(m: bool, run: Run<Event>, begun: Run<Event>)
    requires Extends(run, begun) && begun.Then? && begun.event.Begin?
    ensures var r := BegunRequest(m, begun);
            r in StateOf(m, run).captured && (StateOf(m, run).Current(r) <==> MayMark(m, run, begun, r.tp))
  {
    var r := BegunRequest(m, begun);
    InvHolds(m, run);
    CapturedStays(m, run, begun);
    AdmissionFollowsEvents(m, run, r.tp);
    AdmissionFollowsEvents(m, begun, r.tp);
    AdmissionFollowsEvents(m, begun.before, r.tp);
    hide StateOf, Assigned, HasFailed;
  }

  /** A mark always takes effect in a source without checkpoints.  With checkpoints it takes effect if and only
      if the partition is assigned, no restoration failed, and the partition was neither revoked nor assigned
      since the request began.  It raises what is pending to the next offset, or else changes nothing. */
  lemma MarkTakesEffectIff(m: bool, run: Run<Event>, begun: Run<Event>)
    requires Extends(run, begun) && begun.Then? && begun.event.Begin?
    ensures var r, s := BegunRequest(m, begun), StateOf(m, run);
            var t := StateOf(m, Then(run, Mark(r)));
            && Happens(m, Then(run, Mark(r)))
            && (MayMark(m, run, begun, r.tp) ==>
                  r.tp in t.marked && t.marked[r.tp] >= r.offset + 1
                  && (t.marked[r.tp] == r.offset + 1 || (r.tp in s.marked && t.marked[r.tp] == s.marked[r.tp])))
            && (!MayMark(m, run, begun, r.tp) ==> t == s)
  {
    CurrentIff(m, run, begun);
    hide MayMark;
  }

  /** The same decides whether a manual commit takes the lock for the broker call, or is refused. */
  lemma CommitTakesLockIff(m: bool, run: Run<Event>, begun: Run<Event>)
    requires Extends(run, begun) && begun.Then? && begun.event.Begin? && StateOf(m, run).holder.Free?
    ensures var r, s := BegunRequest(m, begun), StateOf(m, run);
            var t := StateOf(m, Then(run, CommitBegin(r)));
            && Happens(m, Then(run, CommitBegin(r)))
            && t == if MayMark(m, run, begun, r.tp) then s.(holder := Committing(r)) else s
  {
    CurrentIff(m, run, begun);
    hide MayMark;
  }

  /** In a source without checkpoints whatever a request marks is pending, and its commit goes to the broker. */
  lemma PlainSourceActs(run: Run<Event>, r: Request)
    requires r in StateOf(false, run).captured
    ensures var t := StateOf(false, Then(run, Mark(r))); r.tp in t.marked && t.marked[r.tp] >= r.offset + 1
    ensures StateOf(false, run).holder.Free? ==> StateOf(false, Then(run, CommitBegin(r))).holder == Committing(r)
  {
    InvHolds(false, run);
  }

  /** A flush that began as the newest event of `begun` has been answered. */
  ghost predicate Answered(m: bool, run: Run<Event>, begun: Run<Event>) {
    run.Then? && run != begun && (Answered(m, run.before, begun) || (Happens(m, run) && run.event.FlushEnd?))
  }

  /** A flush sends everything that was pending when it began. */
  lemma {:induction false} FlushSendsAllPending(m: bool, run: Run<Event>, begun: Run<Event>)
    requires Extends(run, begun) && Happens(m, begun) && begun.event.FlushBegin? && !Answered(m, run, begun)
    ensures StateOf(m, run).holder == Flushing(StateOf(m, begun.before).marked)
  {
    if run != begun {
      hide Apply, Enabled;
      FlushSendsAllPending(m, run.before, begun);
      if Happens(m, run) {
        LockAndCapturesStay(StateOf(m, run.before), run.event);
      }
    }
  }

  /** What is pending is dropped if and only if the broker accepted a flush that covers it, or the partition's
      revocation returned. */
  lemma DropsIff(m: bool, run: Run<Event>, tp: TopicPartition)
    requires Happens(m, run) && tp in StateOf(m, run.before).marked
    ensures var s := StateOf(m, run.before);
            tp !in StateOf(m, run).marked <==>
            || (run.event == FlushEnd(true) && tp in s.holder.snapshot && s.marked[tp] <= s.holder.snapshot[tp])
            || (run.event.RevokeEnd? && tp in s.rebalance.parts)
  {
  }

  /** The broker's answer to a flush: accepted, only what was marked beyond the flush stays pending; refused,
      everything does.  Either way the lock is free. */
  lemma FlushAnswer(m: bool, run: Run<Event>, begun: Run<Event>, ok: bool, tp: TopicPartition)
    requires Extends(run, begun) && Happens(m, begun) && begun.event.FlushBegin? && !Answered(m, run, begun)
    ensures var s, t := StateOf(m, run), StateOf(m, Then(run, FlushEnd(ok)));
            var sent := StateOf(m, begun.before).marked;
            && Happens(m, Then(run, FlushEnd(ok))) && t.holder.Free?
            && (tp in t.marked <==> tp in s.marked && (ok ==> tp !in sent || s.marked[tp] > sent[tp]))
            && (tp in t.marked ==> t.marked[tp] == s.marked[tp])
  {
    FlushSendsAllPending(m, run, begun);
  }

  /** The broker's answer to a manual commit frees the lock and drops nothing. */
  lemma CommitAnswer(m: bool, run: Run<Event>, ok: bool)
    requires StateOf(m, run).holder.Committing?
    ensures StateOf(m, Then(run, CommitEnd(ok))) == StateOf(m, run).(holder := Free)
  {
  }

  // ---------------------------------------------------------------------------
  // No accepted mark is lost
  // ---------------------------------------------------------------------------

  lemma {:induction false} RevokingStep(s: State, e: Event, tp: TopicPartition)
    requires Inv(s) && Enabled(s, e)
    requires Apply(s, e).rebalance.Revoking? && tp in Apply(s, e).rebalance.parts
    ensures !s.Live(tp) || e.RevokeBegin?
    ensures s.Epoch(tp) < Apply(s, e).Epoch(tp) || s.rebalance == Apply(s, e).rebalance
  {
  }

  /** Marks and restored offsets belong to the current epoch or an older one, and to an older one once
      revocation began. */
  lemma {:induction false} AcceptedEpoch(m: bool, run: Run<Event>, tp: TopicPartition, e: nat, o: int)
    requires Sourced(m, run, tp, e, o)
    ensures var s := StateOf(m, run);
            e <= s.Epoch(tp) && (s.rebalance.Revoking? && tp in s.rebalance.parts ==> e < s.Epoch(tp))
  {
    var s, t := StateOf(m, run.before), StateOf(m, run);
    InvHolds(m, run);
    InvHolds(m, run.before);
    if Sourced(m, run.before, tp, e, o) {
      AcceptedEpoch(m, run.before, tp, e, o);
    }
    if Enabled(s, run.event) && t.rebalance.Revoking? && tp in t.rebalance.parts {
      RevokingStep(s, run.event, tp);
    }
  }

  /** Within one epoch a pending offset only grows, is covered by a flush, or falls to the end of a revocation. */
  lemma {:induction false} PendingStep(s: State, e: Event, tp: TopicPartition)
    requires Enabled(s, e) && tp in s.marked && Apply(s, e).Epoch(tp) == s.Epoch(tp)
    requires e.RevokeEnd? ==> tp !in s.rebalance.parts
    ensures var t := Apply(s, e);
            || (tp in t.marked && t.marked[tp] >= s.marked[tp])
            || (e == FlushEnd(true) && tp in s.holder.snapshot && s.holder.snapshot[tp] >= s.marked[tp])
  {
  }

  /** In every interleaving, a mark accepted or an offset restored in an assignment that has not been revoked
      is still pending at least as far, or a flush the broker accepted in that assignment reached it. */
  lemma {:induction false} MarkIsCovered(m: bool, run: Run<Event>, tp: TopicPartition, e: nat, o: int)
    requires Sourced(m, run, tp, e, o) && StateOf(m, run).Epoch(tp) == e
    ensures var s := StateOf(m, run);
            (tp in s.marked && s.marked[tp] >= o) || FlushedTo(m, run, tp, e, o)
  {
    var s, ev := StateOf(m, run.before), run.event;
    InvHolds(m, run);
    if Sourced(m, run.before, tp, e, o) {
      AcceptedEpoch(m, run.before, tp, e, o);
      MarkIsCovered(m, run.before, tp, e, o);
      if Enabled(s, ev) && tp in s.marked {
        PendingStep(s, ev, tp);
      }
    }
  }

  // ---------------------------------------------------------------------------
  // A flush carries only what was marked or restored
  // ---------------------------------------------------------------------------

  /** Where a pending offset of the next state comes from. */
  lemma {:induction false} PendingOrigin(s: State, e: Event, tp: TopicPartition)
    requires Inv(s) && Enabled(s, e) && tp in Apply(s, e).marked
    ensures var t := Apply(s, e);
            || (e.Mark? && s.Current(e.request) && e.request.tp == tp && t.marked[tp] == e.request.offset + 1)
            || (e.AssignConfirmed? && tp in e.offsets && t.marked[tp] == e.offsets[tp])
            || (e.AssignFailed? && tp in e.seeked && t.marked[tp] == e.seeked[tp])
            || (tp in s.marked && t.marked[tp] == s.marked[tp] && (t.Live(tp) ==> s.Live(tp) && t.Epoch(tp) == s.Epoch(tp)))
  {
    if IsRebalance(e) {
      PendingOriginRebalance(s, e, tp);
    }
  }

  lemma {:induction false} PendingOriginRebalance(s: State, e: Event, tp: TopicPartition)
    requires Inv(s) && Enabled(s, e) && IsRebalance(e) && tp in Apply(s, e).marked
    ensures var t := Apply(s, e);
            || (e.AssignConfirmed? && tp in e.offsets && t.marked[tp] == e.offsets[tp])
            || (e.AssignFailed? && tp in e.seeked && t.marked[tp] == e.seeked[tp])
            || (tp in s.marked && t.marked[tp] == s.marked[tp] && (t.Live(tp) ==> s.Live(tp) && t.Epoch(tp) == s.Epoch(tp)))
  {
  }

  /** Every pending offset, hence every offset in a flush, was marked by a request current at that
      time or restored from the checkpoint; on a live partition it belongs to the current assignment. */
  lemma {:induction false} PendingIsSourced(m: bool, run: Run<Event>, tp: TopicPartition)
    requires tp in StateOf(m, run).marked
    ensures var s := StateOf(m, run);
            exists e: nat ::
              Sourced(m, run, tp, e, s.marked[tp]) && e <= s.Epoch(tp) && (s.Live(tp) ==> e == s.Epoch(tp))
  {
    var s, t, ev := StateOf(m, run.before), StateOf(m, run), run.event;
    InvHolds(m, run);
    InvHolds(m, run.before);
    var o := t.marked[tp];
    if Enabled(s, ev) {
      PendingOrigin(s, ev, tp);
    }
    if Marks(m, run, tp, t.Epoch(tp), o) || Restores(m, run, tp, t.Epoch(tp), o) {
      assert Sourced(m, run, tp, t.Epoch(tp), o);
    } else {
      PendingIsSourced(m, run.before, tp);
      var e: nat :| Sourced(m, run.before, tp, e, o) && e <= s.Epoch(tp) && (s.Live(tp) ==> e == s.Epoch(tp));
      assert Sourced(m, run, tp, e, o);
    }
  }

  // ---------------------------------------------------------------------------
  // Order of the commits of one assignment
  // ---------------------------------------------------------------------------

  ghost predicate Nondecreasing(xs: seq<int>) {
    forall i, j :: 0 <= i < j < |xs| ==> xs[i] <= xs[j]
  }

  lemma PrefixOrdered(xs: seq<int>, ys: seq<int>)
    requires Nondecreasing(xs + ys)
    ensures Nondecreasing(xs)
  {
    assert xs == (xs + ys)[..|xs|];
  }

  /** What the event sends for `tp` in epoch `e`: at most one offset, whether or not the broker accepts it. */
  function SentNow(s: State, ev: Event, tp: TopicPartition, e: nat): seq<int> {
    if ev.FlushBegin? && Enabled(s, ev) && tp in s.marked && s.Epoch(tp) == e then [s.marked[tp]] else []
  }

  /** What the event restores or marks for `tp` in epoch `e`: at most one offset. */
  function ValueNow(s: State, ev: Event, tp: TopicPartition, e: nat): seq<int> {
    if !Enabled(s, ev) || Apply(s, ev).Epoch(tp) != e then []
    else if ev.Mark? && s.Current(ev.request) && ev.request.tp == tp then [ev.request.offset + 1]
    else if ev.AssignConfirmed? && tp in ev.offsets then [ev.offsets[tp]]
    else if ev.AssignFailed? && tp in ev.seeked then [ev.seeked[tp]]
    else []
  }

  ghost function Sent(m: bool, run: Run<Event>, tp: TopicPartition, e: nat): seq<int> {
    if run.Start? then [] else Sent(m, run.before, tp, e) + SentNow(StateOf(m, run.before), run.event, tp, e)
  }

  ghost function Values(m: bool, run: Run<Event>, tp: TopicPartition, e: nat): seq<int> {
    if run.Start? then [] else Values(m, run.before, tp, e) + ValueNow(StateOf(m, run.before), run.event, tp, e)
  }

  /** The newest event marks below the last offset sent, at a moment when nothing is pending. */
  ghost predicate LateMark(m: bool, run: Run<Event>, tp: TopicPartition, e: nat) {
    run.Then? && run.event.Mark? &&
    var s, sent := StateOf(m, run.before), Sent(m, run.before, tp, e);
    Enabled(s, run.event) && s.Current(run.event.request) && run.event.request.tp == tp && s.Epoch(tp) == e
    && tp !in s.marked && sent != [] && run.event.request.offset + 1 < sent[|sent| - 1]
  }

  ghost predicate NoLateMark(m: bool, run: Run<Event>, tp: TopicPartition, e: nat) {
    run.Then? ==> NoLateMark(m, run.before, tp, e) && !LateMark(m, run, tp, e)
  }

  /** Only a mark or a restored offset makes a partition pending; a pending offset never shrinks within its epoch. */
  lemma {:induction false} PendingGrows(s: State, e: Event, tp: TopicPartition)
    requires Inv(s) && Enabled(s, e) && tp in Apply(s, e).marked
    ensures var t := Apply(s, e);
            || (tp in s.marked && s.marked[tp] <= t.marked[tp])
            || t.Epoch(tp) > s.Epoch(tp)
            || (tp !in s.marked && e.Mark? && s.Current(e.request) && e.request.tp == tp && t.marked[tp] == e.request.offset + 1)
  {
  }

  /** In the current epoch nothing pending is below what was sent last. */
  ghost predicate Ahead(s: State, tp: TopicPartition, e: nat, sent: seq<int>) {
    && (e > s.Epoch(tp) ==> sent == [])
    && (e == s.Epoch(tp) && tp in s.marked && sent != [] ==> sent[|sent| - 1] <= s.marked[tp])
  }

  lemma {:induction false} AheadStep(s: State, ev: Event, tp: TopicPartition, e: nat, sent: seq<int>)
    requires Inv(s) && Enabled(s, ev) && Ahead(s, tp, e, sent) && s.Epoch(tp) <= Apply(s, ev).Epoch(tp)
    requires ev.Mark? && s.Current(ev.request) && ev.request.tp == tp && s.Epoch(tp) == e && tp !in s.marked && sent != []
             ==> sent[|sent| - 1] <= ev.request.offset + 1
    ensures Ahead(Apply(s, ev), tp, e, sent + SentNow(s, ev, tp, e))
  {
    if tp in Apply(s, ev).marked {
      PendingGrows(s, ev, tp);
    }
  }

  lemma SentGrows(s: State, ev: Event, tp: TopicPartition, e: nat, sent: seq<int>)
    requires Nondecreasing(sent) && Ahead(s, tp, e, sent)
    ensures Nondecreasing(sent + SentNow(s, ev, tp, e))
  {
    if SentNow(s, ev, tp, e) == [] {
      assert sent + [] == sent;
    } else {
      AppendOrdered(sent, s.marked[tp]);
    }
  }

  lemma AheadNow(m: bool, run: Run<Event>, tp: TopicPartition, e: nat)
    requires run.Then? && !LateMark(m, run, tp, e)
    requires Ahead(StateOf(m, run.before), tp, e, Sent(m, run.before, tp, e))
    ensures Ahead(StateOf(m, run), tp, e, Sent(m, run, tp, e))
  {
    InvHolds(m, run);
    InvHolds(m, run.before);
    hide Inv, Ahead, Apply;
    var s, ev, sent := StateOf(m, run.before), run.event, Sent(m, run.before, tp, e);
    if Enabled(s, ev) {
      hide Enabled;
      AheadStep(s, ev, tp, e, sent);
    } else {
      assert sent + [] == sent;
    }
  }

  /** Without a late mark, one assignment's flushes send nondecreasing offsets. */
  lemma {:induction false} CommitsInOrder(m: bool, run: Run<Event>, tp: TopicPartition, e: nat)
    requires NoLateMark(m, run, tp, e)
    ensures Nondecreasing(Sent(m, run, tp, e)) && Ahead(StateOf(m, run), tp, e, Sent(m, run, tp, e))
  {
    if run.Then? {
      hide StateOf, Nondecreasing, SentNow, LateMark, Ahead;
      CommitsInOrder(m, run.before, tp, e);
      SentGrows(StateOf(m, run.before), run.event, tp, e, Sent(m, run.before, tp, e));
      AheadNow(m, run, tp, e);
    }
  }

  /** On a live partition everything pending or sent in this epoch is bounded by its last value. */
  ghost predicate Bounded(s: State, tp: TopicPartition, e: nat, sent: seq<int>, values: seq<int>) {
    && (e > s.Epoch(tp) ==> sent == [] && values == [])
    && (e == s.Epoch(tp) && s.Live(tp) && (tp in s.marked || sent != []) ==>
      && values != []
      && (tp in s.marked ==> s.marked[tp] <= values[|values| - 1])
      && (sent != [] ==> sent[|sent| - 1] <= values[|values| - 1]))
  }

  lemma {:induction false} BoundedMark(s: State, ev: Event, tp: TopicPartition, e: nat, sent: seq<int>, values: seq<int>)
    requires Enabled(s, ev) && ev.Mark? && Bounded(s, tp, e, sent, values)
    requires Nondecreasing(values + ValueNow(s, ev, tp, e))
    ensures Bounded(Apply(s, ev), tp, e, sent, values + ValueNow(s, ev, tp, e))
  {
    var now := ValueNow(s, ev, tp, e);
    if now != [] && values != [] {
      assert (values + now)[|values| - 1] <= (values + now)[|values|];
    }
  }

  lemma {:induction false} BoundedOther(s: State, ev: Event, tp: TopicPartition, e: nat, sent: seq<int>, values: seq<int>)
    requires Inv(s) && Enabled(s, ev) && !IsRebalance(ev) && !ev.Mark? && Bounded(s, tp, e, sent, values)
    ensures ValueNow(s, ev, tp, e) == []
    ensures Bounded(Apply(s, ev), tp, e, sent + SentNow(s, ev, tp, e), values)
  {
    var t := Apply(s, ev);
    assert t.Epoch(tp) == s.Epoch(tp) && t.Live(tp) == s.Live(tp);
    assert tp in t.marked ==> tp in s.marked && t.marked[tp] == s.marked[tp];
  }

  lemma {:induction false} BoundedRebalanceStep(s: State, ev: Event, tp: TopicPartition, e: nat, sent: seq<int>, values: seq<int>)
    requires Inv(s) && Enabled(s, ev) && IsRebalance(ev) && Bounded(s, tp, e, sent, values)
    ensures Bounded(Apply(s, ev), tp, e, sent, values + ValueNow(s, ev, tp, e))
  {
    var t := Apply(s, ev);
    if e == t.Epoch(tp) && t.Live(tp) && (tp in t.marked || sent != []) {
      if s.Epoch(tp) == e {
        assert s.Live(tp) && (tp in t.marked ==> tp in s.marked && t.marked[tp] == s.marked[tp]);
      } else {
        assert ev.AssignConfirmed? && tp in ev.offsets;
      }
    }
  }

  lemma {:induction false} BoundedStep(s: State, ev: Event, tp: TopicPartition, e: nat, sent: seq<int>, values: seq<int>)
    requires Inv(s) && Enabled(s, ev) && Bounded(s, tp, e, sent, values)
    requires Nondecreasing(values + ValueNow(s, ev, tp, e))
    ensures Bounded(Apply(s, ev), tp, e, sent + SentNow(s, ev, tp, e), values + ValueNow(s, ev, tp, e))
  {
    if IsRebalance(ev) {
      BoundedRebalanceStep(s, ev, tp, e, sent, values);
    } else if ev.Mark? {
      BoundedMark(s, ev, tp, e, sent, values);
    } else {
      BoundedOther(s, ev, tp, e, sent, values);
    }
    assert ev.FlushBegin? || sent + SentNow(s, ev, tp, e) == sent;
    assert ValueNow(s, ev, tp, e) == [] ==> values + ValueNow(s, ev, tp, e) == values;
  }

  /** A value that does not step back is not a late mark. */
  lemma {:induction false} OrderedIsNotLate(m: bool, run: Run<Event>, tp: TopicPartition, e: nat)
    requires run.Then? && Nondecreasing(Values(m, run, tp, e))
    requires Bounded(StateOf(m, run.before), tp, e, Sent(m, run.before, tp, e), Values(m, run.before, tp, e))
    ensures !LateMark(m, run, tp, e)
  {
    var values, now := Values(m, run.before, tp, e), ValueNow(StateOf(m, run.before), run.event, tp, e);
    if now != [] && values != [] {
      assert (values + now)[|values| - 1] <= (values + now)[|values|];
    }
  }

  lemma {:induction false} ValuesBound(m: bool, run: Run<Event>, tp: TopicPartition, e: nat)
    requires Nondecreasing(Values(m, run, tp, e))
    ensures NoLateMark(m, run, tp, e)
    ensures Bounded(StateOf(m, run), tp, e, Sent(m, run, tp, e), Values(m, run, tp, e))
  {
    if run.Then? {
      var s, ev := StateOf(m, run.before), run.event;
      InvHolds(m, run.before);
      PrefixOrdered(Values(m, run.before, tp, e), ValueNow(s, ev, tp, e));
      ValuesBound(m, run.before, tp, e);
      OrderedIsNotLate(m, run, tp, e);
      if Enabled(s, ev) {
        BoundedStep(s, ev, tp, e, Sent(m, run.before, tp, e), Values(m, run.before, tp, e));
      }
    }
  }

  /** Marks that never step back, counted from the restored offset, make commits that never step back. */
  lemma {:induction false} OrderedMarksCommitInOrder(m: bool, run: Run<Event>, tp: TopicPartition, e: nat)
    requires Nondecreasing(Values(m, run, tp, e))
    ensures Nondecreasing(Sent(m, run, tp, e))
  {
    ValuesBound(m, run, tp, e);
    CommitsInOrder(m, run, tp, e);
  }

  /** Exactly the late mark breaks the order: after an ordered past, a flush right behind a mark
      sends less than the flush before it if and only if the mark was late. */
  lemma {:induction false} FlushAfterMarkInOrderIff(m: bool, run: Run<Event>, r: Request)
    requires NoLateMark(m, run, r.tp, StateOf(m, run).Epoch(r.tp))
    requires var s := StateOf(m, run); r in s.captured && s.Current(r) && s.holder.Free?
    ensures var s := StateOf(m, run);
            var e, marked := s.Epoch(r.tp), Then(run, Mark(r));
            Nondecreasing(Sent(m, Then(marked, FlushBegin), r.tp, e)) <==> !LateMark(m, marked, r.tp, e)
  {
    var s := StateOf(m, run);
    var e, marked := s.Epoch(r.tp), Then(run, Mark(r));
    CommitsInOrder(m, run, r.tp, e);
    var sent, t := Sent(m, run, r.tp, e), StateOf(m, marked);
    MarkThenFlush(s, r);
    AppendOrdered(sent, t.marked[r.tp]);
    hide Nondecreasing, Apply, Enabled, SentNow, Inv;
    assert sent + [] == sent;
  }

  /** A mark that takes effect, and what a flush right behind it sends. */
  lemma MarkThenFlush(s: State, r: Request)
    requires r in s.captured && s.Current(r) && s.holder.Free?
    ensures Enabled(s, Mark(r))
    ensures var t, e := Apply(s, Mark(r)), s.Epoch(r.tp);
            && r.tp in t.marked && SentNow(s, Mark(r), r.tp, e) == [] && SentNow(t, FlushBegin, r.tp, e) == [t.marked[r.tp]]
            && (if r.tp in s.marked then t.marked[r.tp] >= s.marked[r.tp] else t.marked[r.tp] == r.offset + 1)
  {
  }

  lemma AppendOrdered(xs: seq<int>, x: int)
    requires Nondecreasing(xs)
    ensures Nondecreasing(xs + [x]) <==> xs == [] || xs[|xs| - 1] <= x
  {
    if xs != [] {
      assert (xs + [x])[|xs| - 1] == xs[|xs| - 1] && (xs + [x])[|xs|] == x;
    }
  }

  /** A partition assigned at offset 0, and then the requests of its records 5 and 1. */
  ghost function BegunRun(tp: TopicPartition): Run<Event> {
    Then(Then(Then(Then(Start, AssignBegin({tp}, true)), AssignConfirmed(map[tp := 0])), Begin(tp, 5)), Begin(tp, 1))
  }

  /** Record 5 is marked and committed before record 1 is marked, and a flush follows. */
  ghost function LateMarkRun(tp: TopicPartition): Run<Event> {
    var committed := Then(Then(Then(BegunRun(tp), Mark(Request(tp, 5, 1))), FlushBegin), FlushEnd(true));
    Then(Then(committed, Mark(Request(tp, 1, 1))), FlushBegin)
  }

  lemma {:induction false} BegunState(tp: TopicPartition)
    ensures StateOf(true, BegunRun(tp)) ==
            State(true, map[tp := 0], {tp}, map[tp := 1], false, map[tp := 0], {Request(tp, 5, 1), Request(tp, 1, 1)}, Free, Settled)
    ensures Sent(true, BegunRun(tp), tp, 1) == []
  {
    var a1 := Then(Start, AssignBegin({tp}, true));
    var a2 := Then(a1, AssignConfirmed(map[tp := 0]));
    assert StateOf(true, a1) == State(true, map[], {}, map[], false, map[], {}, Free, Restoring({tp}));
    assert StateOf(true, a2) == State(true, map[tp := 0], {tp}, map[tp := 1], false, map[tp := 0], {}, Free, Settled);
    assert Sent(true, a1, tp, 1) == [] && Sent(true, a2, tp, 1) == [];
    assert StateOf(true, Then(a2, Begin(tp, 5))) == StateOf(true, a2).(captured := {Request(tp, 5, 1)});
    assert Sent(true, Then(a2, Begin(tp, 5)), tp, 1) == [];
  }

  /** One step of a run whose state and commits so far are known. */
  lemma {:induction false} OneStep(run: Run<Event>, s: State, e: Event, tp: TopicPartition, sent: seq<int>)
    requires StateOf(true, run) == s && Enabled(s, e) && Sent(true, run, tp, 1) == sent
    ensures StateOf(true, Then(run, e)) == Apply(s, e)
    ensures Sent(true, Then(run, e), tp, 1) == sent + SentNow(s, e, tp, 1)
  {
    hide Apply, Enabled;
  }

  /** Late marks happen: in one assignment the flushes commit 6 and then 2. */
  lemma {:induction false} LateMarkBreaksTheOrder(tp: TopicPartition)
    ensures var run := LateMarkRun(tp);
            && LateMark(true, run.before, tp, 1)
            && Sent(true, run, tp, 1) == [6, 2]
            && !Nondecreasing(Sent(true, run, tp, 1))
  {
    BegunState(tp);
    var run0, s0 := BegunRun(tp), StateOf(true, BegunRun(tp));
    hide StateOf, Sent;
    OneStep(run0, s0, Mark(Request(tp, 5, 1)), tp, []);
    var run1, s1 := Then(run0, Mark(Request(tp, 5, 1))), s0.(marked := map[tp := 6]);
    OneStep(run1, s1, FlushBegin, tp, []);
    var run2, s2 := Then(run1, FlushBegin), s1.(holder := Flushing(map[tp := 6]));
    OneStep(run2, s2, FlushEnd(true), tp, [6]);
    var run3, s3 := Then(run2, FlushEnd(true)), s0.(marked := map[]);
    OneStep(run3, s3, Mark(Request(tp, 1, 1)), tp, [6]);
    var run4, s4 := Then(run3, Mark(Request(tp, 1, 1))), s0.(marked := map[tp := 2]);
    OneStep(run4, s4, FlushBegin, tp, [6]);
    assert [6] + [2] == [6, 2] && [6, 2][0] > [6, 2][1];
  }

  // ---------------------------------------------------------------------------
  // Epoch fencing
  // ---------------------------------------------------------------------------

  /** The revocation callback returned for `tp` as the newest event. */
  ghost predicate RevokedNow(m: bool, run: Run<Event>, tp: TopicPartition) {
    run.Then? && run.event.RevokeEnd? &&
    var s := StateOf(m, run.before);
    Enabled(s, run.event) && tp in s.rebalance.parts
  }

  /** The newest event is a mark or a manual commit of `r` that takes effect: the mark itself, the
      decision to commit, or the broker's answer to the commit. */
  ghost predicate TakesEffect(m: bool, run: Run<Event>, r: Request) {
    run.Then? &&
    var s := StateOf(m, run.before);
    Enabled(s, run.event) &&
    match run.event
    case Mark(q) => q == r && s.Current(r)
    case CommitBegin(q) => q == r && s.Current(r)
    case CommitEnd(_) => s.holder == Committing(r)
    case _ => false
  }

  /** Nothing of `tp` that belongs to an epoch up to `e` is admitted, pending or at the broker. */
  ghost predicate Fenced(s: State, tp: TopicPartition, e: nat) {
    && s.restoring
    && e <= s.Epoch(tp)
    && (s.Live(tp) ==> e < s.Epoch(tp))
    && (s.holder.Committing? && s.holder.request.tp == tp ==> e < s.holder.request.epoch)
  }

  lemma {:induction false} FenceStep(s: State, ev: Event, tp: TopicPartition, e: nat)
    requires Inv(s) && Enabled(s, ev) && Fenced(s, tp, e)
    ensures Fenced(Apply(s, ev), tp, e)
  {
    if ev.AssignConfirmed? || ev.AssignFailed? || ev.RevokeBegin? || ev.AssignBegin? {
      RebalanceStep(s, ev);
    }
  }

  lemma {:induction false} FenceHolds(m: bool, later: Run<Event>, earlier: Run<Event>, tp: TopicPartition)
    requires Extends(later, earlier) && RevokedNow(m, earlier, tp)
    ensures Fenced(StateOf(m, later), tp, StateOf(m, earlier).Epoch(tp))
  {
    InvHolds(m, later);
    if later == earlier {
      InvHolds(m, earlier.before);
    } else {
      FenceHolds(m, later.before, earlier, tp);
      InvHolds(m, later.before);
      var s := StateOf(m, later.before);
      if Enabled(s, later.event) {
        FenceStep(s, later.event, tp, StateOf(m, earlier).Epoch(tp));
      }
    }
  }

  /** After the revocation callback returned for a partition, no mark and no commit of a request that
      captured that epoch or an older one takes effect, over any number of later cycles. */
  lemma {:induction false} RevokedRequestsAreFenced(m: bool, later: Run<Event>, earlier: Run<Event>, r: Request)
    requires later != earlier && Extends(later, earlier) && RevokedNow(m, earlier, r.tp)
    requires TakesEffect(m, later, r)
    ensures r.epoch > StateOf(m, earlier).Epoch(r.tp)
  {
    FenceHolds(m, later.before, earlier, r.tp);
  }

  /** Nor does a flush carry anything marked or restored before the callback returned. */
  lemma {:induction false} RevokedOffsetsAreGone(m: bool, later: Run<Event>, earlier: Run<Event>, tp: TopicPartition)
    requires Extends(later, earlier) && RevokedNow(m, earlier, tp) && tp in StateOf(m, later).marked
    ensures exists e: nat ::
              e > StateOf(m, earlier).Epoch(tp) && Sourced(m, later, tp, e, StateOf(m, later).marked[tp])
  {
    if later != earlier {
      var s, t, ev := StateOf(m, later.before), StateOf(m, later), later.event;
      InvHolds(m, later.before);
      InvHolds(m, later);
      FenceHolds(m, later, earlier, tp);
      FenceHolds(m, later.before, earlier, tp);
      var fence, o := StateOf(m, earlier).Epoch(tp), t.marked[tp];
      if Enabled(s, ev) {
        PendingOrigin(s, ev, tp);
      }
      if Marks(m, later, tp, t.Epoch(tp), o) || Restores(m, later, tp, t.Epoch(tp), o) {
        RestoreBumps(s, ev, tp);
        assert Sourced(m, later, tp, t.Epoch(tp), o);
      } else {
        RevokedOffsetsAreGone(m, later.before, earlier, tp);
        var e: nat :| e > fence && Sourced(m, later.before, tp, e, o);
        assert Sourced(m, later, tp, e, o);
      }
    }
  }

  lemma {:induction false} RestoreBumps(s: State, ev: Event, tp: TopicPartition)
    requires Enabled(s, ev)
    ensures (ev.AssignConfirmed? && tp in ev.offsets) || (ev.AssignFailed? && tp in ev.seeked)
            ==> Apply(s, ev).Epoch(tp) > s.Epoch(tp)
  {
  }

  lemma {:induction false} FailureStep(s: State, ev: Event)
    requires Inv(s) && Enabled(s, ev) && s.failed
    ensures Apply(s, ev).failed
  {
  }

  /** A checkpoint error is final: the assigned set stays empty and no request is ever current again. */
  lemma {:induction false} CheckpointErrorClosesAdmission(m: bool, later: Run<Event>, earlier: Run<Event>)
    requires Extends(later, earlier) && StateOf(m, earlier).failed
    ensures var s := StateOf(m, later);
            s.failed && s.assignment == {} && (forall tp :: !s.Live(tp)) && (forall r :: !s.Current(r))
  {
    InvHolds(m, later);
    if later != earlier {
      CheckpointErrorClosesAdmission(m, later.before, earlier);
      InvHolds(m, later.before);
      if Enabled(StateOf(m, later.before), later.event) {
        FailureStep(StateOf(m, later.before), later.event);
      }
    }
  }

  lemma {:induction false} AdmissionStep(s: State, ev: Event, tp: TopicPartition)
    requires Inv(s) && Enabled(s, ev) && s.restoring && Apply(s, ev).Live(tp)
    ensures var t := Apply(s, ev);
            || (ev.AssignConfirmed? && tp in ev.offsets && t.position == s.position + ev.offsets)
            || (s.Live(tp) && t.Epoch(tp) == s.Epoch(tp) && (tp in s.position ==> tp in t.position && t.position[tp] == s.position[tp]))
  {
  }

  /** A partition is admitted only at the offset its checkpoint gave for the current assignment. */
  lemma {:induction false} AdmittedAtRestoredOffset(m: bool, run: Run<Event>, tp: TopicPartition)
    requires m && StateOf(m, run).Live(tp)
    ensures var s := StateOf(m, run);
            tp in s.position && Restored(m, run, tp, s.Epoch(tp), s.position[tp])
  {
    InvHolds(m, run);
    if run.Then? {
      var s, ev := StateOf(m, run.before), run.event;
      InvHolds(m, run.before);
      if Enabled(s, ev) {
        AdmissionStep(s, ev, tp);
      }
      if s.Live(tp) && StateOf(m, run).Epoch(tp) == s.Epoch(tp) {
        AdmittedAtRestoredOffset(m, run.before, tp);
      }
    }
  }

  // ---------------------------------------------------------------------------
  // The endpoint consumer
  // ---------------------------------------------------------------------------

  datatype Option<T> = None | Some(value: T)

  /** The checkpoint copy the source keeps: partitions and next offsets within the wire's integer ranges. */
  predicate ValidCheckpoint(checkpoint: map<int, int>) {
    forall p <- checkpoint :: 0 <= p < 0x8000_0000 && 0 <= checkpoint[p] < 0x8000_0000_0000_0000
  }

  /** The checkpoint covers the assignment and every restored offset lies within the retained log. */
  predicate Restorable(topic: string, parts: set<TopicPartition>, checkpoint: Option<map<int, int>>,
                       low: map<TopicPartition, int>, high: map<TopicPartition, int>)
  {
    && checkpoint.Some? && ValidCheckpoint(checkpoint.value)
    && (forall tp <- parts :: tp.topic == topic && tp.partition in checkpoint.value)
    && (forall tp <- parts :: tp in low && tp in high && 0 <= low[tp] <= checkpoint.value[tp.partition] <= high[tp])
  }

  /** A restoration is refused exactly for one of these: no checkpoint; one outside the wire's integer ranges; a
      partition of another topic, or that the checkpoint does not cover, or whose log bounds are unknown; an
      offset outside its log. */
  lemma RefusedIff(topic: string, parts: set<TopicPartition>, checkpoint: Option<map<int, int>>,
                   low: map<TopicPartition, int>, high: map<TopicPartition, int>)
    ensures !Restorable(topic, parts, checkpoint, low, high) <==>
            || checkpoint.None?
            || (exists p <- checkpoint.value ::
                  p < 0 || p > 2147483647 || checkpoint.value[p] < 0 || checkpoint.value[p] > 9223372036854775807)
            || (exists tp <- parts :: tp.topic != topic || tp.partition !in checkpoint.value || tp !in low || tp !in high)
            || (exists tp <- parts :: tp.partition in checkpoint.value && tp in low && tp in high &&
                  (low[tp] < 0 || checkpoint.value[tp.partition] < low[tp] || high[tp] < checkpoint.value[tp.partition]))
  {
  }

  function Selected(parts: set<TopicPartition>, checkpoint: map<int, int>): map<TopicPartition, int>
    requires forall tp <- parts :: tp.partition in checkpoint
  {
    map tp | tp in parts :: checkpoint[tp.partition]
  }

  /** The part of a checkpoint that a failing seek lets through: partitions whose own seek succeeds, and not all. */
  ghost predicate SoughtBefore(sought: map<TopicPartition, int>, selected: map<TopicPartition, int>, failing: set<TopicPartition>) {
    && sought.Keys < selected.Keys && sought.Keys !! failing
    && forall tp <- sought :: sought[tp] == selected[tp]
  }

  /** How an assignment ends: confirmed; closed before any partition was touched; or closed by the seek that
      failed, with the partitions sought before it already restored. */
  ghost predicate AssignEnds(topic: string, parts: set<TopicPartition>, checkpoint: Option<map<int, int>>,
                             low: map<TopicPartition, int>, high: map<TopicPartition, int>, ownerActive: bool,
                             failing: set<TopicPartition>, e: Event)
  {
    if !Restorable(topic, parts, checkpoint, low, high) || (parts != {} && !ownerActive) then e == AssignFailed(map[])
    else if failing !! parts then e == AssignConfirmed(Selected(parts, checkpoint.value))
    else e.AssignFailed? && SoughtBefore(e.seeked, Selected(parts, checkpoint.value), failing)
  }

  /** The effect of the seeks made so far. */
  function WithRestored(s: State, sought: map<TopicPartition, int>): State {
    s.(position := s.position + sought, epochs := Bumped(s, sought.Keys), marked := s.marked + sought)
  }

  /** The consumer's offset fields.  Each method is the code between two suspension points. */
  class EndpointConsumer {
    const restoring: bool
    var markedOffsets: map<TopicPartition, int>
    var assignedPartitions: set<TopicPartition>
    var assignmentEpochs: map<TopicPartition, nat>
    var checkpointError: bool
    var position: map<TopicPartition, int>
    var requests: set<Request>
    var commitLock: Holder
    var rebalance: Rebalance

    constructor (restoring: bool)
      ensures this.restoring == restoring && View() == Initial(restoring)
    {
      this.restoring := restoring;
      markedOffsets, assignedPartitions, assignmentEpochs, checkpointError := map[], {}, map[], false;
      position, requests, commitLock, rebalance := map[], {}, Free, Settled;
    }

    function View(): State
      reads this
    {
      State(restoring, markedOffsets, assignedPartitions, assignmentEpochs, checkpointError,
            position, requests, commitLock, rebalance)
    }

    /** The closures' guard, evaluated against the fields. */
    method CurrentAssignment(r: Request) returns (current: bool)
      ensures current == View().Current(r)
    {
      if !restoring {
        return true;
      }
      var epoch := if r.tp in assignmentEpochs then assignmentEpochs[r.tp] else 0;
      current := !checkpointError && r.tp in assignedPartitions && epoch == r.epoch;
    }

    method BeginRequest(tp: TopicPartition, offset: int) returns (r: Request)
      modifies this
      ensures View() == Apply(old(View()), Begin(tp, offset))
      ensures r == Request(tp, offset, old(View()).Epoch(tp))
    {
      r := Request(tp, offset, if tp in assignmentEpochs then assignmentEpochs[tp] else 0);
      requests := requests + {r};
    }

    method MarkMessage(r: Request)
      requires r in requests
      modifies this
      ensures View() == Apply(old(View()), Mark(r))
    {
      var current := CurrentAssignment(r);
      if current {
        var offset := r.offset + 1;
        if r.tp in markedOffsets && markedOffsets[r.tp] > offset {
          offset := markedOffsets[r.tp];
        }
        markedOffsets := markedOffsets[r.tp := offset];
      }
    }

    /** The manual commit up to the broker call; a fenced request gets an error and commits nothing. */
    method CommitMessage(r: Request) returns (refused: bool)
      requires r in requests && commitLock.Free?
      modifies this
      ensures View() == Apply(old(View()), CommitBegin(r))
      ensures refused == !old(View()).Current(r) && (refused ==> commitLock.Free?)
    {
      var current := CurrentAssignment(r);
      refused := !current;
      if current {
        commitLock := Committing(r);
      }
    }

    method FinishCommit(ok: bool)
      requires commitLock.Committing?
      modifies this
      ensures View() == Apply(old(View()), CommitEnd(ok))
    {
      commitLock := Free;
    }

    /** The flush up to the broker call.  With nothing marked it returns at once. */
    method BeginFlush() returns (offsets: map<TopicPartition, int>)
      requires commitLock.Free?
      modifies this
      ensures offsets == old(markedOffsets)
      ensures View() == if offsets == map[] then old(View()) else Apply(old(View()), FlushBegin)
    {
      offsets := markedOffsets;
      if offsets != map[] {
        commitLock := Flushing(offsets);
      }
    }

    /** The flush after the broker answered: on success drop what the snapshot covers. */
    method FinishFlush(ok: bool)
      requires commitLock.Flushing?
      modifies this
      ensures View() == Apply(old(View()), FlushEnd(ok))
    {
      var offsets := commitLock.snapshot;
      commitLock := Free;
      if ok {
        var rest := offsets.Keys;
        while rest != {}
          invariant rest <= offsets.Keys
          invariant View() == old(View()).(holder := Free, marked := markedOffsets)
          invariant forall tp :: tp in markedOffsets <==>
                    tp in old(markedOffsets) && (tp in offsets && tp !in rest ==> old(markedOffsets)[tp] > offsets[tp])
          invariant forall tp <- markedOffsets :: markedOffsets[tp] == old(markedOffsets)[tp]
          decreases rest
        {
          var tp :| tp in rest;
          if (if tp in markedOffsets then markedOffsets[tp] else 0) <= offsets[tp] {
            markedOffsets := markedOffsets - {tp};
          }
          rest := rest - {tp};
        }
      }
    }

    /** Bump the epoch of each partition, one by one. */
    method BumpEpochs(parts: set<TopicPartition>)
      modifies this`assignmentEpochs
      ensures assignmentEpochs == Bumped(old(View()), parts)
    {
      var rest := parts;
      while rest != {}
        invariant rest <= parts
        invariant assignmentEpochs == Bumped(old(View()), parts - rest)
        decreases rest
      {
        var tp :| tp in rest;
        assignmentEpochs := assignmentEpochs[tp := if tp in assignmentEpochs then assignmentEpochs[tp] + 1 else 1];
        rest := rest - {tp};
      }
      assert parts - rest == parts;
    }

    method BeginRevoke(parts: set<TopicPartition>)
      requires restoring && rebalance.Settled?
      modifies this
      ensures View() == Apply(old(View()), RevokeBegin(parts))
    {
      assignedPartitions := assignedPartitions - parts;
      BumpEpochs(parts);
      rebalance := Revoking(parts);
    }

    /** After the cancelled lanes ended and the commit lock was free. */
    method FinishRevoke()
      requires rebalance.Revoking? && commitLock.Free?
      modifies this
      ensures View() == Apply(old(View()), RevokeEnd)
    {
      var parts := rebalance.parts;
      var rest := parts;
      while rest != {}
        invariant rest <= parts
        invariant View() == old(View()).(marked := markedOffsets)
        invariant markedOffsets == old(markedOffsets) - (parts - rest)
        decreases rest
      {
        var tp :| tp in rest;
        markedOffsets := markedOffsets - {tp};
        rest := rest - {tp};
      }
      assert parts - rest == parts;
      rebalance := Settled;
    }

    method BeginAssign(parts: set<TopicPartition>, ownerActive: bool)
      requires restoring && rebalance.Settled?
      modifies this
      ensures View() == Apply(old(View()), AssignBegin(parts, ownerActive))
    {
      assignedPartitions := assignedPartitions - parts;
      if checkpointError {
        return;
      }
      if !ownerActive {
        checkpointError := true;
        assignedPartitions := {};
      } else {
        rebalance := Restoring(parts);
      }
    }

    /** Seek to each restored offset, open its epoch and make it the first pending offset, up to a seek that fails. */
    method RestorePositions(selected: map<TopicPartition, int>, failing: set<TopicPartition>)
      returns (sought: map<TopicPartition, int>)
      modifies this`position, this`assignmentEpochs, this`markedOffsets
      ensures if failing !! selected.Keys then sought == selected else SoughtBefore(sought, selected, failing)
      ensures View() == WithRestored(old(View()), sought)
    {
      hide WithRestored;
      var rest := selected.Keys;
      sought := map[];
      NothingRestored(View());
      while rest != {}
        invariant rest <= selected.Keys && sought.Keys == selected.Keys - rest && sought.Keys !! failing
        invariant forall tp <- sought :: sought[tp] == selected[tp]
        invariant View() == WithRestored(old(View()), sought)
        decreases rest
      {
        var tp :| tp in rest;
        if tp in failing {
          return;
        }
        RestoreOne(old(View()), sought, tp, selected[tp]);
        position := position[tp := selected[tp]];
        assignmentEpochs := assignmentEpochs[tp := if tp in assignmentEpochs then assignmentEpochs[tp] + 1 else 1];
        markedOffsets := markedOffsets[tp := selected[tp]];
        rest := rest - {tp};
        sought := sought[tp := selected[tp]];
      }
      assert sought.Keys == selected.Keys;
    }

    /** After the checkpoint and the log bounds were read: admit the partitions or close admission. */
    method FinishAssign(topic: string, checkpoint: Option<map<int, int>>, low: map<TopicPartition, int>,
                        high: map<TopicPartition, int>, ownerActive: bool, failing: set<TopicPartition>)
      returns (ghost outcome: Event)
      requires rebalance.Restoring? && commitLock.Free?
      modifies this
      ensures AssignEnds(topic, old(rebalance).parts, checkpoint, low, high, ownerActive, failing, outcome)
      ensures Enabled(old(View()), outcome) && View() == Apply(old(View()), outcome)
    {
      var parts := rebalance.parts;
      if Restorable(topic, parts, checkpoint, low, high) && (parts == {} || ownerActive) {
        outcome := AdmitSelected(Selected(parts, checkpoint.value), failing);
      } else {
        NothingRestored(View());
        outcome := AssignFailed(map[]);
        CloseAdmission();
      }
    }

    /** The handler of a failed restoration. */
    method CloseAdmission()
      modifies this`checkpointError, this`assignedPartitions, this`rebalance
      ensures View() == old(View()).(failed := true, assignment := {}, rebalance := Settled)
    {
      checkpointError := true;
      assignedPartitions := {};
      rebalance := Settled;
    }

    /** The part of the assignment under the commit lock. */
    method AdmitSelected(selected: map<TopicPartition, int>, failing: set<TopicPartition>) returns (ghost outcome: Event)
      requires rebalance.Restoring? && commitLock.Free? && selected.Keys == rebalance.parts
      modifies this
      ensures if failing !! selected.Keys then outcome == AssignConfirmed(selected)
              else outcome.AssignFailed? && SoughtBefore(outcome.seeked, selected, failing)
      ensures Enabled(old(View()), outcome) && View() == Apply(old(View()), outcome)
    {
      var sought := RestorePositions(selected, failing);
      if sought != selected {
        outcome := AssignFailed(sought);
        CloseAdmission();
        return;
      }
      outcome := AssignConfirmed(selected);
      assignedPartitions := assignedPartitions + selected.Keys;
      rebalance := Settled;
    }
  }

  lemma BumpOne(s: State, parts: set<TopicPartition>, tp: TopicPartition)
    requires tp !in parts
    ensures Bumped(s, parts + {tp}) == Bumped(s, parts)[tp := s.Epoch(tp) + 1]
  {
  }

  lemma NothingRestored(s: State)
    ensures WithRestored(s, map[]) == s
  {
    assert Bumped(s, {}) == s.epochs && s.position + map[] == s.position && s.marked + map[] == s.marked;
  }

  /** One more restored partition. */
  lemma RestoreOne(s: State, sought: map<TopicPartition, int>, tp: TopicPartition, offset: int)
    requires tp !in sought
    ensures var t := WithRestored(s, sought);
            WithRestored(s, sought[tp := offset]) ==
            t.(position := t.position[tp := offset], marked := t.marked[tp := offset],
            epochs := t.epochs[tp := if tp in t.epochs then t.epochs[tp] + 1 else 1])
  {
    BumpOne(s, sought.Keys, tp);
    assert sought[tp := offset].Keys == sought.Keys + {tp};
    assert s.position + sought[tp := offset] == (s.position + sought)[tp := offset];
    assert s.marked + sought[tp := offset] == (s.marked + sought)[tp := offset];
  }
}
