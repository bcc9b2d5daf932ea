/** The Workflow environment: tracked tasks, the pools, one sticky failure, and the waits that may
    report success only when nothing is outstanding and nothing has failed.  Graph code may create
    tasks and pool items at any time; a task or an item may create more before it ends. */
module Quiescence {
  import opened Runs
  import WorkflowPool

  datatype Option<T> = None | Some(value: T)

  /** Ordinary and priority pools are kept in two dictionaries. */
  datatype PoolId = PoolId(prioritized: bool, name: string)

  datatype Outcome = Fine | Cancelled | Failed(error: string)

  /** Who creates a task or an item: code outside the graph, a tracked task or a pool item. */
  datatype Parent = Outside | ByTask(t: nat) | ByItem(p: PoolId, n: nat)

  /** Where a wait is suspended, or how it ended. */
  datatype Pc =
    | AwaitingResult
    | AwaitingTasks(tasks: set<nat>, pools: set<PoolId>, finishing: bool)
    | AwaitingPools(pools: set<PoolId>, finishing: bool)
    | Stopping(pools: set<PoolId>)
    | InStop(p: PoolId, pools: set<PoolId>)
    | Joining(tasks: set<nat>)
    | ClosingStorages(left: nat)
    | Returned(finishing: bool)
    | Raised

  datatype State = State(
    failure: Option<string>,
    pools: map<PoolId, WorkflowPool.State>,
    storages: nat,
    created: nat,
    tracked: set<nat>,
    outcomes: map<nat, Outcome>,
    waiters: map<nat, Pc>)

  /** The executors of each pool, and the number of registered storages. */
  datatype Config = Config(pools: map<PoolId, nat>, storages: nat)

  function Initial(config: Config): State {
    State(None, map p | p in config.pools :: WorkflowPool.Initial(p.prioritized, config.pools[p]), config.storages, 0, {}, map[], map[])
  }

  datatype Event =
    | CreateTask(parent: Parent)
    | TaskEnds(t: nat, outcome: Outcome)
    | Callback(t: nat)
    | InPool(p: PoolId, e: WorkflowPool.Event, parent: Parent)
    | Quiesce(w: nat)
    | Complete(w: nat)
    | ResultReady(w: nat, ok: bool)
    | BeginFinish(w: nat)
    | TasksWaited(w: nat, first: nat)
    | PoolWaited(w: nat, p: PoolId)
    | BeginStop(w: nat, p: PoolId)
    | StopDone(w: nat, p: PoolId)
    | Joined(w: nat)
    | StorageStopped(w: nat, ok: bool)

  predicate Live(s: State, parent: Parent) {
    match parent
    case Outside => true
    case ByTask(t) => t in s.tracked && t !in s.outcomes
    case ByItem(p, n) => p in s.pools && WorkflowPool.Busy(n) in s.pools[p].executors
  }

  predicate AllEnded(s: State, tasks: set<nat>) {
    forall t <- tasks :: t in s.outcomes
  }

  function FailedAmong(s: State, tasks: set<nat>): set<nat> {
    set t | t in tasks && t in s.outcomes && s.outcomes[t].Failed?
  }

  predicate IsWait(e: Event) {
    !e.CreateTask? && !e.TaskEnds? && !e.Callback? && !e.InPool?
  }

  predicate WaitEnabled(s: State, e: Event)
    requires IsWait(e)
  {
    if e.Quiesce? || e.Complete? || e.BeginFinish? then e.w !in s.waiters
    else
      e.w in s.waiters &&
      var pc := s.waiters[e.w];
      match e
      case ResultReady(_, _) => pc.AwaitingResult?
      case TasksWaited(_, first) =>
        pc.AwaitingTasks? && AllEnded(s, pc.tasks)
        && (FailedAmong(s, pc.tasks) != {} ==> first in FailedAmong(s, pc.tasks))
      case PoolWaited(_, p) => pc.AwaitingPools? && p in pc.pools
      case BeginStop(_, p) => pc.Stopping? && p in pc.pools && p in s.pools
      case StopDone(_, p) => pc.InStop? && p == pc.p && p in s.pools && s.pools[p].drain.Drained?
      case Joined(_) => pc.Joining? && AllEnded(s, pc.tasks)
      case StorageStopped(_, _) => pc.ClosingStorages? && pc.left > 0
  }

  predicate Enabled(s: State, e: Event) {
    match e
    case CreateTask(parent) => Live(s, parent)
    case TaskEnds(t, _) => t in s.tracked && t !in s.outcomes
    case Callback(t) => t in s.tracked && t in s.outcomes
    case InPool(p, pe, parent) =>
      p in s.pools && WorkflowPool.Enabled(s.pools[p], pe) && !pe.Stop? && (pe.Add? ==> Live(s, parent))
    case _ => WaitEnabled(s, e)
  }

  /** The first failure is kept. */
  function Record(s: State, error: string): State {
    if s.failure.None? then s.(failure := Some(error)) else s
  }

  function Active(s: State): set<PoolId> {
    set p | p in s.pools && s.pools[p].pending != 0
  }

  predicate Quiescent(s: State) {
    s.tracked == {} && Active(s) == {}
  }

  /** `finish` stops its storages one after the other, and raises the failure last.  Nothing looks at the
      tracked tasks any more. */
  function Close(s: State, w: nat, left: nat): State {
    s.(waiters := s.waiters[w := if left > 0 then ClosingStorages(left) else if s.failure.Some? then Raised else Returned(true)])
  }

  /** After the pools: every tracked task is joined, then the storages are stopped. */
  function Join(s: State, w: nat): State {
    if s.tracked != {} then s.(waiters := s.waiters[w := Joining(s.tracked)]) else Close(s, w, s.storages)
  }

  /** One round of the quiescence loop, up to its suspension or its end. */
  function Round(s: State, w: nat, finishing: bool): State {
    if s.failure.Some? then s.(waiters := s.waiters[w := Raised])
    else if Quiescent(s) then
      if !finishing then s.(waiters := s.waiters[w := Returned(false)])
      else if s.pools == map[] then Join(s, w)
      else s.(waiters := s.waiters[w := Stopping(s.pools.Keys)])
    else if s.tracked != {} then s.(waiters := s.waiters[w := AwaitingTasks(s.tracked, Active(s), finishing)])
    else s.(waiters := s.waiters[w := AwaitingPools(Active(s), finishing)])
  }

  /** The failure that a resuming executor reports. */
  function Reported(s: WorkflowPool.State, e: WorkflowPool.Event): Option<string>
    requires WorkflowPool.Enabled(s, e)
  {
    if e.Resume? && s.executors[e.x].outcome.Failed? then Some(s.executors[e.x].outcome.error) else None
  }

  function ApplyWork(s: State, e: Event): State
    requires !IsWait(e) && Enabled(s, e)
  {
    match e
    case CreateTask(_) => s.(created := s.created + 1, tracked := s.tracked + {s.created})
    case TaskEnds(t, outcome) => s.(outcomes := s.outcomes[t := outcome])
    case Callback(t) =>
      var u := s.(tracked := s.tracked - {t});
      if s.outcomes[t].Failed? then Record(u, s.outcomes[t].error) else u
    case InPool(p, pe, _) =>
      var u := s.(pools := s.pools[p := WorkflowPool.Apply(s.pools[p], pe)]);
      var reported := Reported(s.pools[p], pe);
      if reported.Some? then Record(u, reported.value) else u
  }

  function ApplyWait(s: State, e: Event): State
    requires IsWait(e) && WaitEnabled(s, e)
  {
    match e
    case Quiesce(w) => Round(s, w, false)
    case Complete(w) => s.(waiters := s.waiters[w := AwaitingResult])
    case ResultReady(w, ok) =>
      if s.failure.Some? || !ok then s.(waiters := s.waiters[w := Raised]) else Round(s, w, false)
    case BeginFinish(w) => Round(s, w, true)
    case TasksWaited(w, first) =>
      var pc := s.waiters[w];
      var u := if FailedAmong(s, pc.tasks) == {} then s else Record(s, s.outcomes[first].error);
      if pc.pools == {} then Round(u, w, pc.finishing)
      else u.(waiters := u.waiters[w := AwaitingPools(pc.pools, pc.finishing)])
    case PoolWaited(w, p) =>
      var pc := s.waiters[w];
      if pc.pools == {p} then Round(s, w, pc.finishing)
      else s.(waiters := s.waiters[w := AwaitingPools(pc.pools - {p}, pc.finishing)])
    case BeginStop(w, p) =>
      s.(pools := s.pools[p := WorkflowPool.Apply(s.pools[p], WorkflowPool.Stop)],
         waiters := s.waiters[w := InStop(p, s.waiters[w].pools - {p})])
    case StopDone(w, _) =>
      if s.waiters[w].pools == {} then Join(s, w) else s.(waiters := s.waiters[w := Stopping(s.waiters[w].pools)])
    case Joined(w) => Join(s, w)
    case StorageStopped(w, ok) =>
      if ok then Close(s, w, s.waiters[w].left - 1) else s.(waiters := s.waiters[w := Raised])
  }

  function Apply(s: State, e: Event): State
    requires Enabled(s, e)
  {
    if IsWait(e) then ApplyWait(s, e) else ApplyWork(s, e)
  }

  // ---------------------------------------------------------------------------
  // Runs, and the run of each pool inside a run
  // ---------------------------------------------------------------------------

  /** The state after a run.  An event whose guard does not hold cannot happen and changes nothing. */
  ghost function StateOf(config: Config, run: Run<Event>): State {
    if run.Start? then Initial(config)
    else
      var s := StateOf(config, run.before);
      if Enabled(s, run.event) then Apply(s, run.event) else s
  }

  /** What an event does to one pool. */
  function PoolEvents(s: State, e: Event, p: PoolId): seq<WorkflowPool.Event> {
    if !Enabled(s, e) then []
    else if e.InPool? && e.p == p then [e.e]
    else if e.BeginStop? && e.p == p then [WorkflowPool.Stop]
    else []
  }

  ghost function PoolRun(config: Config, run: Run<Event>, p: PoolId): Run<WorkflowPool.Event> {
    if run.Start? then Runs.Start
    else
      var before := PoolRun(config, run.before, p);
      var es := PoolEvents(StateOf(config, run.before), run.event, p);
      if es == [] then before else Then(before, es[0])
  }

  lemma RoundFrame(s: State, w: nat, finishing: bool)
    ensures Round(s, w, finishing) == s.(waiters := Round(s, w, finishing).waiters)
  {
    hide Active;
  }

  lemma JoinFrame(s: State, w: nat)
    ensures Join(s, w) == s.(waiters := Join(s, w).waiters)
  {
  }

  /** A wait changes its waiter, may record a failure and may stop a pool. */
  lemma WaitFrame(s: State, e: Event)
    requires Enabled(s, e) && IsWait(e)
    ensures var t := Apply(s, e);
            && t == s.(waiters := t.waiters, failure := t.failure, pools := t.pools)
            && (s.failure.Some? ==> t.failure == s.failure)
            && (!e.BeginStop? ==> t.pools == s.pools)
  {
    RoundFrame(s, e.w, false);
    RoundFrame(s, e.w, true);
    JoinFrame(s, e.w);
    if e.TasksWaited? && FailedAmong(s, s.waiters[e.w].tasks) != {} {
      RoundFrame(Record(s, s.outcomes[e.first].error), e.w, s.waiters[e.w].finishing);
    }
    hide Round, Join, AllEnded, WorkflowPool.Apply;
  }

  lemma PoolStep(s: State, e: Event, p: PoolId)
    requires Enabled(s, e) && p in s.pools
    ensures Apply(s, e).pools.Keys == s.pools.Keys
    ensures var es := PoolEvents(s, e, p);
            if es == [] then Apply(s, e).pools[p] == s.pools[p]
            else WorkflowPool.Enabled(s.pools[p], es[0]) && Apply(s, e).pools[p] == WorkflowPool.Apply(s.pools[p], es[0])
  {
    if IsWait(e) {
      WaitFrame(s, e);
      if !e.BeginStop? {
        hide Apply;
      }
    }
    hide WorkflowPool.Apply, WorkflowPool.Enabled, Round, Join;
  }

  /** Each pool of the environment is in a state that the pool's own protocol reaches. */
  lemma {:induction false} PoolsRefine(config: Config, run: Run<Event>, p: PoolId)
    requires p in config.pools
    ensures StateOf(config, run).pools.Keys == config.pools.Keys
    ensures StateOf(config, run).pools[p] == WorkflowPool.StateOf(p.prioritized, config.pools[p], PoolRun(config, run, p))
  {
    hide Apply, Enabled, PoolEvents;
    if run.Then? {
      PoolsRefine(config, run.before, p);
      var s, e := StateOf(config, run.before), run.event;
      if Enabled(s, e) {
        PoolStep(s, e, p);
      } else {
        NoPoolEvents(s, e, p);
      }
    }
  }

  lemma NoPoolEvents(s: State, e: Event, p: PoolId)
    requires !Enabled(s, e)
    ensures PoolEvents(s, e, p) == []
  {
  }

  // ---------------------------------------------------------------------------
  // Invariant of the environment
  // ---------------------------------------------------------------------------

  ghost predicate TasksOk(s: State) {
    && (forall t <- s.tracked :: t < s.created)
    && (forall t <- s.outcomes :: t < s.created)
    && (forall t: nat :: t < s.created ==> t in s.tracked || t in s.outcomes)
    && (forall t <- s.outcomes :: s.outcomes[t].Failed? && t !in s.tracked ==> s.failure.Some?)
  }

  predicate Stopped(s: State, except: set<PoolId>) {
    forall p <- s.pools :: p in except || s.pools[p].drain.Drained?
  }

  predicate WaiterOk(s: State, pc: Pc) {
    match pc
    case Stopping(pools) => Stopped(s, pools)
    case InStop(p, pools) => Stopped(s, pools + {p})
    case Joining(_) => Stopped(s, {})
    case ClosingStorages(left) => Stopped(s, {}) && left <= s.storages
    case Returned(finishing) => finishing ==> Stopped(s, {})
    case _ => true
  }

  ghost predicate WaitersOk(s: State) {
    forall w <- s.waiters :: WaiterOk(s, s.waiters[w])
  }

  ghost predicate Inv(s: State) {
    TasksOk(s) && WaitersOk(s)
  }

  lemma DrainedStays(s: State, e: Event, p: PoolId)
    requires Enabled(s, e) && p in s.pools && s.pools[p].drain.Drained?
    ensures p in Apply(s, e).pools && Apply(s, e).pools[p].drain.Drained?
  {
    PoolStep(s, e, p);
    hide Apply;
  }

  lemma WaitersKept(s: State, e: Event)
    requires Enabled(s, e) && WaitersOk(s)
    ensures forall w <- s.waiters :: WaiterOk(Apply(s, e), s.waiters[w])
  {
    forall p | p in s.pools && s.pools[p].drain.Drained?
      ensures p in Apply(s, e).pools && Apply(s, e).pools[p].drain.Drained?
    {
      DrainedStays(s, e, p);
    }
    KeysStay(s, e);
    StoragesStay(s, e);
    hide Apply, Enabled;
  }

  lemma StoragesStay(s: State, e: Event)
    requires Enabled(s, e)
    ensures Apply(s, e).storages == s.storages
  {
    if IsWait(e) {
      WaitFrame(s, e);
    }
    hide Round, Join, WorkflowPool.Apply;
  }

  lemma KeysStay(s: State, e: Event)
    requires Enabled(s, e)
    ensures Apply(s, e).pools.Keys == s.pools.Keys
  {
    if IsWait(e) {
      WaitFrame(s, e);
    }
    hide Round, Join, WorkflowPool.Apply;
  }

  /** What a round, or the end of `finish`, does to its waiter. */
  lemma RoundShape(s: State, w: nat, finishing: bool)
    ensures var t := Round(s, w, finishing);
            && w in t.waiters && t == s.(waiters := s.waiters[w := t.waiters[w]]) && WaiterOk(t, t.waiters[w])
            && (t.waiters[w].Returned? ==> s.failure.None? && Quiescent(s))
  {
    hide Active;
  }

  lemma CloseShape(s: State, w: nat, left: nat)
    requires Stopped(s, {}) && left <= s.storages
    ensures var t := Close(s, w, left);
            w in t.waiters && t == s.(waiters := s.waiters[w := t.waiters[w]]) && WaiterOk(t, t.waiters[w])
  {
  }

  lemma JoinShape(s: State, w: nat)
    requires Stopped(s, {})
    ensures var t := Join(s, w);
            w in t.waiters && t == s.(waiters := s.waiters[w := t.waiters[w]]) && WaiterOk(t, t.waiters[w])
  {
    CloseShape(s, w, s.storages);
    hide Close;
  }

  predicate EndsFinish(e: Event) {
    e.StopDone? || e.Joined? || e.StorageStopped?
  }

  /** The steps of `finish` after the pools were told to stop. */
  lemma FinishStep(s: State, e: Event)
    requires Enabled(s, e) && WaitersOk(s) && EndsFinish(e)
    ensures e.w in Apply(s, e).waiters && Apply(s, e).waiters == s.waiters[e.w := Apply(s, e).waiters[e.w]]
    ensures WaiterOk(Apply(s, e), Apply(s, e).waiters[e.w])
  {
    assert WaiterOk(s, s.waiters[e.w]);
    if Stopped(s, {}) {
      JoinShape(s, e.w);
      if e.StorageStopped? {
        CloseShape(s, e.w, s.waiters[e.w].left - 1);
      }
    }
    hide Join, Close, AllEnded, WaitersOk;
  }

  /** A waiter's own step. */
  lemma OwnStep(s: State, e: Event)
    requires Enabled(s, e) && WaitersOk(s) && IsWait(e)
    ensures e.w in Apply(s, e).waiters && Apply(s, e).waiters == s.waiters[e.w := Apply(s, e).waiters[e.w]]
    ensures WaiterOk(Apply(s, e), Apply(s, e).waiters[e.w])
  {
    if EndsFinish(e) {
      FinishStep(s, e);
    } else {
      RoundShape(s, e.w, false);
      RoundShape(s, e.w, true);
      if e.TasksWaited? {
        RoundShape(Record(s, if e.first in s.outcomes && s.outcomes[e.first].Failed? then s.outcomes[e.first].error else ""), e.w, s.waiters[e.w].finishing);
      }
      hide Round, Join, Close, Active, AllEnded;
    }
  }

  lemma OthersStep(s: State, e: Event)
    requires Enabled(s, e) && !IsWait(e)
    ensures Apply(s, e).waiters == s.waiters
  {
    hide WorkflowPool.Apply;
  }

  lemma WorkKeepsTasks(s: State, e: Event)
    requires TasksOk(s) && Enabled(s, e) && !IsWait(e)
    ensures TasksOk(Apply(s, e))
  {
    hide WorkflowPool.Apply;
  }

  /** A wait only records failures. */
  lemma WaitsKeepTasks(s: State, e: Event)
    requires TasksOk(s) && WaitersOk(s) && Enabled(s, e) && IsWait(e)
    ensures TasksOk(Apply(s, e))
  {
    WaitFrame(s, e);
    hide TasksOk, Apply, Enabled, WaitersOk;
    TasksMatter(s, Apply(s, e));
  }

  lemma TasksMatter(s: State, t: State)
    requires TasksOk(s) && t.tracked == s.tracked && t.outcomes == s.outcomes && t.created == s.created
    requires s.failure.Some? ==> t.failure.Some?
    ensures TasksOk(t)
  {
  }

  lemma {:induction false} StepKeepsInv(s: State, e: Event)
    requires Inv(s) && Enabled(s, e)
    ensures Inv(Apply(s, e))
  {
    WaitersKept(s, e);
    if IsWait(e) {
      WaitsKeepTasks(s, e);
      OwnStep(s, e);
    } else {
      WorkKeepsTasks(s, e);
      OthersStep(s, e);
    }
    hide Apply, TasksOk, WaiterOk;
  }

  lemma {:induction false} InvHolds(config: Config, run: Run<Event>)
    ensures Inv(StateOf(config, run))
  {
    hide Apply, Enabled;
    if run.Then? {
      InvHolds(config, run.before);
      if Enabled(StateOf(config, run.before), run.event) {
        StepKeepsInv(StateOf(config, run.before), run.event);
      }
    }
  }

  // ---------------------------------------------------------------------------
  // The failure
  // ---------------------------------------------------------------------------

  lemma FailureStays(s: State, e: Event)
    requires Enabled(s, e) && s.failure.Some?
    ensures Apply(s, e).failure == s.failure
  {
  }

  /** The recorded failure is sticky: the first one wins. */
  lemma {:induction false} FirstFailureWins(config: Config, earlier: Run<Event>, later: Run<Event>)
    requires Extends(later, earlier) && StateOf(config, earlier).failure.Some?
    ensures StateOf(config, later).failure == StateOf(config, earlier).failure
  {
    hide Apply, Enabled;
    if later != earlier {
      FirstFailureWins(config, earlier, later.before);
      if Enabled(StateOf(config, later.before), later.event) {
        FailureStays(StateOf(config, later.before), later.event);
      }
    }
  }

  /** The history of one pool item: accepted, started, ended. */
  ghost function ItemHistory(config: Config, run: Run<Event>, p: PoolId, n: nat): seq<WorkflowPool.Mark>
    requires p in config.pools
  {
    WorkflowPool.History(p.prioritized, config.pools[p], PoolRun(config, run, p), n)
  }

  /** A failed item is with its executor until it is reported. */
  lemma {:induction false} FailedItemIsReported(config: Config, run: Run<Event>, p: PoolId, n: nat, o: WorkflowPool.Outcome)
    requires p in config.pools && o.Failed? && WorkflowPool.Ended(n, o) in ItemHistory(config, run, p, n)
    ensures p in StateOf(config, run).pools
    ensures StateOf(config, run).failure.Some? || WorkflowPool.Done(n, o) in StateOf(config, run).pools[p].executors
  {
    PoolsRefine(config, run, p);
    if run.Then? {
      var s, e := StateOf(config, run.before), run.event;
      PoolsRefine(config, run.before, p);
      var es := PoolEvents(s, e, p);
      if WorkflowPool.Ended(n, o) in ItemHistory(config, run.before, p, n) {
        FailedItemIsReported(config, run.before, p, n, o);
      }
      if Enabled(s, e) && s.failure.Some? {
        FailureStays(s, e);
      }
      hide Apply, WorkflowPool.Apply, WorkflowPool.Seen, WorkflowPool.Enabled;
      if s.failure.None? && es != [] {
        WorkflowPool.EndIsKept(p.prioritized, config.pools[p], PoolRun(config, run, p), n, o);
        ResumeReports(s, e, p, n, o);
      }
    }
  }

  lemma ResumeReports(s: State, e: Event, p: PoolId, n: nat, o: WorkflowPool.Outcome)
    requires p in s.pools && o.Failed? && PoolEvents(s, e, p) != []
    ensures var pe := PoolEvents(s, e, p)[0];
            pe.Resume? && WorkflowPool.Enabled(s.pools[p], pe) && s.pools[p].executors[pe.x] == WorkflowPool.Done(n, o)
            ==> Apply(s, e).failure.Some?
  {
    hide WorkflowPool.Apply;
  }

  /** A task or a pool item failed with this error. */
  ghost predicate FailedWith(config: Config, run: Run<Event>, error: string) {
    || (exists t :: t in StateOf(config, run).outcomes && StateOf(config, run).outcomes[t] == Failed(error))
    || (exists p, n: nat :: p in config.pools && WorkflowPool.Ended(n, WorkflowPool.Failed(error)) in ItemHistory(config, run, p, n))
  }

  lemma OutcomesStay(s: State, e: Event)
    requires Enabled(s, e)
    ensures forall t <- s.outcomes :: t in Apply(s, e).outcomes && Apply(s, e).outcomes[t] == s.outcomes[t]
  {
    if IsWait(e) {
      WaitFrame(s, e);
    }
    hide WorkflowPool.Apply, Round, Join, Close, ApplyWait;
  }

  /** The task ended in this way. */
  ghost predicate EndedAs(config: Config, run: Run<Event>, t: nat, outcome: Outcome) {
    run.Then? &&
    (EndedAs(config, run.before, t, outcome) ||
     (Enabled(StateOf(config, run.before), run.event) && run.event == TaskEnds(t, outcome)))
  }

  lemma NewOutcome(s: State, e: Event, t: nat, outcome: Outcome)
    requires Enabled(s, e)
    ensures t in Apply(s, e).outcomes && Apply(s, e).outcomes[t] == outcome
            <==> (t in s.outcomes && s.outcomes[t] == outcome) || e == TaskEnds(t, outcome)
  {
    if IsWait(e) {
      WaitFrame(s, e);
    }
    hide WorkflowPool.Apply, Round, Join, Close, ApplyWait;
  }

  /** A task's outcome is how it ended. */
  lemma {:induction false} OutcomeIff(config: Config, run: Run<Event>, t: nat, outcome: Outcome)
    ensures var s := StateOf(config, run);
            t in s.outcomes && s.outcomes[t] == outcome <==> EndedAs(config, run, t, outcome)
  {
    if run.Then? {
      hide Apply, Enabled;
      OutcomeIff(config, run.before, t, outcome);
      if Enabled(StateOf(config, run.before), run.event) {
        NewOutcome(StateOf(config, run.before), run.event, t, outcome);
      }
    }
  }

  /** Where a newly recorded failure comes from. */
  lemma RecordedNow(s: State, e: Event)
    requires Enabled(s, e) && s.failure.None? && Apply(s, e).failure.Some?
    ensures var error := Apply(s, e).failure.value;
            || (e.Callback? && s.outcomes[e.t] == Failed(error))
            || (e.TasksWaited? && e.first in s.outcomes && s.outcomes[e.first] == Failed(error))
            || (e.InPool? && e.e.Resume? && s.pools[e.p].executors[e.e.x].outcome == WorkflowPool.Failed(error))
  {
    if IsWait(e) {
      RoundKeepsFailure(s, e.w, false);
      RoundKeepsFailure(s, e.w, true);
      if e.TasksWaited? && FailedAmong(s, s.waiters[e.w].tasks) != {} {
        var u := Record(s, s.outcomes[e.first].error);
        RoundKeepsFailure(u, e.w, s.waiters[e.w].finishing);
      }
      hide Round, WorkflowPool.Apply;
    } else {
      hide WorkflowPool.Apply, Round, Join, Close, ApplyWait;
    }
  }

  lemma RoundKeepsFailure(s: State, w: nat, finishing: bool)
    ensures Round(s, w, finishing).failure == s.failure
  {
    hide Active;
  }

  lemma FailedWithStays(config: Config, run: Run<Event>, error: string)
    requires run.Then? && FailedWith(config, run.before, error)
    ensures FailedWith(config, run, error)
  {
    var s := StateOf(config, run.before);
    if t :| t in s.outcomes && s.outcomes[t] == Failed(error) {
      if Enabled(s, run.event) {
        OutcomesStay(s, run.event);
      }
      hide Apply, Enabled;
      assert t in StateOf(config, run).outcomes && StateOf(config, run).outcomes[t] == Failed(error);
    } else {
      hide StateOf;
      var p, n: nat :| p in config.pools && WorkflowPool.Ended(n, WorkflowPool.Failed(error)) in ItemHistory(config, run.before, p, n);
      ItemHistoryGrows(config, run, p, n);
      assert WorkflowPool.Ended(n, WorkflowPool.Failed(error)) in ItemHistory(config, run, p, n);
    }
  }

  lemma ItemHistoryGrows(config: Config, run: Run<Event>, p: PoolId, n: nat)
    requires run.Then? && p in config.pools
    ensures forall m <- ItemHistory(config, run.before, p, n) :: m in ItemHistory(config, run, p, n)
  {
    hide WorkflowPool.Seen, WorkflowPool.StateOf, StateOf, PoolEvents;
  }

  lemma ReportedItemFailed(config: Config, run: Run<Event>, p: PoolId, x: nat, error: string)
    requires p in StateOf(config, run).pools && x < |StateOf(config, run).pools[p].executors|
    requires var pc := StateOf(config, run).pools[p].executors[x]; pc.Done? && pc.outcome == WorkflowPool.Failed(error)
    ensures FailedWith(config, run, error)
  {
    KeysAre(config, run);
    PoolsRefine(config, run, p);
    var n := StateOf(config, run).pools[p].executors[x].number;
    WorkflowPool.DoneHasEnded(p.prioritized, config.pools[p], PoolRun(config, run, p), x);
    hide StateOf, WorkflowPool.StateOf, WorkflowPool.History, PoolRun;
    assert WorkflowPool.Ended(n, WorkflowPool.Failed(error)) in ItemHistory(config, run, p, n);
  }

  /** A failure is recorded only when a task or a pool item failed with it; cancelled ones do not count. */
  lemma {:induction false} FailureHasSource(config: Config, run: Run<Event>)
    requires StateOf(config, run).failure.Some?
    ensures FailedWith(config, run, StateOf(config, run).failure.value)
  {
    var s, e := StateOf(config, run.before), run.event;
    if s.failure.Some? {
      if Enabled(s, e) {
        FailureStays(s, e);
      }
      hide Apply, Enabled, FailedWith;
      FailureHasSource(config, run.before);
      FailedWithStays(config, run, s.failure.value);
    } else {
      var error := StateOf(config, run).failure.value;
      RecordedNow(s, e);
      if e.InPool? {
        hide Apply, FailedWith;
        ReportedItemFailed(config, run.before, e.p, e.e.x, error);
      } else {
        var t := if e.Callback? then e.t else e.first;
        assert t in s.outcomes && s.outcomes[t] == Failed(error);
        assert FailedWith(config, run.before, error);
        hide Apply, FailedWith;
      }
      FailedWithStays(config, run, error);
    }
  }

  // ---------------------------------------------------------------------------
  // How the waits go on
  // ---------------------------------------------------------------------------

  /** A wait for quiescence raises a recorded failure; otherwise it returns at once if and only if nothing is
      outstanding, and else waits for the tasks and pools that are at work now. */
  lemma QuiesceIff(config: Config, run: Run<Event>, w: nat)
    requires w !in StateOf(config, run).waiters
    ensures var s, t := StateOf(config, run), StateOf(config, Then(run, Quiesce(w)));
            && w in t.waiters
            && (t.waiters[w] == Raised <==> s.failure.Some?)
            && (t.waiters[w] == Returned(false) <==>
                  s.failure.None? && s.tracked == {} && forall p <- s.pools :: s.pools[p].pending == 0)
            && (t.waiters[w] in {Raised, Returned(false)} || t.waiters[w] == AwaitingTasks(s.tracked, Active(s), false)
                || (s.tracked == {} && t.waiters[w] == AwaitingPools(Active(s), false)))
  {
    IdleMeans(StateOf(config, run));
    hide Active, ApplyWork;
  }

  lemma IdleMeans(s: State)
    ensures Active(s) == {} <==> forall p <- s.pools :: s.pools[p].pending == 0
  {
    if Active(s) == {} {
      forall p | p in s.pools ensures s.pools[p].pending == 0 {
        assert p !in Active(s);
      }
    }
  }

  /** A wait for completion whose result arrives raises a recorded failure or a failed result, and otherwise goes on
      as a wait for quiescence. */
  lemma ResultIff(config: Config, run: Run<Event>, w: nat, ok: bool)
    requires w in StateOf(config, run).waiters && StateOf(config, run).waiters[w].AwaitingResult?
    ensures var s, t := StateOf(config, run), StateOf(config, Then(run, ResultReady(w, ok)));
            && w in t.waiters
            && (t.waiters[w] == Raised <==> s.failure.Some? || !ok)
            && (t.waiters[w] == Returned(false) <==> ok && s.failure.None? && Quiescent(s))
  {
    hide Active, ApplyWork, Quiescent;
  }

  /** A wait on tasks resumes when all of its tasks have ended, and records a failure exactly if one of them failed
      and none was recorded before. */
  lemma TasksWaitedRecords(config: Config, run: Run<Event>, w: nat, first: nat)
    requires Enabled(StateOf(config, run), TasksWaited(w, first))
    ensures var s, t := StateOf(config, run), StateOf(config, Then(run, TasksWaited(w, first)));
            && (forall k <- s.waiters[w].tasks :: k in s.outcomes)
            && (if s.failure.None? && (exists k <- s.waiters[w].tasks :: s.outcomes[k].Failed?)
                then t.failure.Some? && exists k <- s.waiters[w].tasks :: s.outcomes[k] == Failed(t.failure.value)
                else t.failure == s.failure)
  {
    var s := StateOf(config, run);
    var pc := s.waiters[w];
    assert FailedAmong(s, pc.tasks) != {} <==> exists k <- pc.tasks :: k in s.outcomes && s.outcomes[k].Failed? by {
      if k :| k in pc.tasks && k in s.outcomes && s.outcomes[k].Failed? {
        assert k in FailedAmong(s, pc.tasks);
      }
    }
    RoundKeepsFailure(s, w, pc.finishing);
    if FailedAmong(s, pc.tasks) != {} {
      assert first in pc.tasks && s.outcomes[first].Failed?;
      RoundKeepsFailure(Record(s, s.outcomes[first].error), w, pc.finishing);
    }
    hide StateOf, Round, ApplyWork, FailedAmong;
  }

  /** Where a round of the quiescence loop leaves a wait: a failure is raised, then tasks are awaited, then pools;
      with neither, a wait has returned and `finish` goes on to stop the pools. */
  predicate RoundLeaves(s: State, pc: Pc, finishing: bool) {
    if s.failure.Some? then pc == Raised
    else if s.tracked != {} then pc == AwaitingTasks(s.tracked, Active(s), finishing)
    else if Active(s) != {} then pc == AwaitingPools(Active(s), finishing)
    else if !finishing then pc == Returned(false)
    else pc == if s.pools != map[] then Stopping(s.pools.Keys) else AfterStorages(s, s.storages)
  }

  lemma RoundIs(s: State, w: nat, finishing: bool)
    ensures var t := Round(s, w, finishing); w in t.waiters && RoundLeaves(s, t.waiters[w], finishing)
  {
    hide Active;
  }

  /** The loop behind a wait: once its tasks have ended it waits for the pools of its snapshot, one after the other,
      and then looks again. */
  lemma WaitLooks(config: Config, run: Run<Event>, w: nat, first: nat, p: PoolId)
    ensures var s := StateOf(config, run);
            && (w !in s.waiters ==> RoundLeaves(s, Apply(s, BeginFinish(w)).waiters[w], true))
            && (Enabled(s, TasksWaited(w, first)) ==>
                  var pc, t := s.waiters[w], Apply(s, TasksWaited(w, first));
                  if pc.pools != {} then t.waiters[w] == AwaitingPools(pc.pools, pc.finishing)
                  else RoundLeaves(s.(failure := t.failure), t.waiters[w], pc.finishing))
            && (Enabled(s, PoolWaited(w, p)) ==>
                  var pc, t := s.waiters[w], Apply(s, PoolWaited(w, p));
                  if pc.pools != {p} then t.waiters[w] == AwaitingPools(pc.pools - {p}, pc.finishing)
                  else RoundLeaves(s, t.waiters[w], pc.finishing))
  {
    var s := StateOf(config, run);
    RoundIs(s, w, true);
    RoundIs(s, w, false);
    RoundKeepsFailure(s, w, true);
    RoundKeepsFailure(s, w, false);
    if w in s.waiters && Enabled(s, TasksWaited(w, first)) {
      var u := if FailedAmong(s, s.waiters[w].tasks) == {} then s else Record(s, s.outcomes[first].error);
      RoundIs(u, w, s.waiters[w].finishing);
      RoundKeepsFailure(u, w, s.waiters[w].finishing);
    }
    hide StateOf, Round, ApplyWork, Active, AllEnded, AfterStorages;
  }

  /** A task that has ended leaves the tracked ones with its callback, which records its error as the failure if it
      is the first; a cancelled task leaves without. */
  lemma TaskLeaves(config: Config, run: Run<Event>, t: nat)
    requires Enabled(StateOf(config, run), Callback(t))
    ensures var s := StateOf(config, run);
            var u := Apply(s, Callback(t));
            && u.tracked == s.tracked - {t}
            && u.failure == if s.failure.None? && s.outcomes[t].Failed? then Some(s.outcomes[t].error) else s.failure
  {
    hide StateOf, ApplyWait;
  }

  /** The steps of `finish` behind its wait: each pool is stopped and waited for, then the tracked tasks are joined,
      then the storages are stopped one by one, and a recorded failure is raised last. */
  lemma FinishGoesOn(config: Config, run: Run<Event>, w: nat, p: PoolId)
    requires w in StateOf(config, run).waiters
    ensures var s, pc := StateOf(config, run), StateOf(config, run).waiters[w];
            && (pc.Stopping? && p in pc.pools && p in s.pools ==>
                  var t := Apply(s, BeginStop(w, p));
                  t.waiters[w] == InStop(p, pc.pools - {p}) && t.pools[p].stopped)
            && (pc.InStop? && Enabled(s, StopDone(w, pc.p)) ==>
                  Apply(s, StopDone(w, pc.p)).waiters[w] == if pc.pools != {} then Stopping(pc.pools) else AfterJoin(s, s.tracked))
            && (pc.Joining? && Enabled(s, Joined(w)) ==> Apply(s, Joined(w)).waiters[w] == AfterJoin(s, s.tracked))
            && (pc.ClosingStorages? && pc.left > 0 ==>
                  && Enabled(s, StorageStopped(w, true)) && Apply(s, StorageStopped(w, true)).waiters[w] == AfterStorages(s, pc.left - 1)
                  && Apply(s, StorageStopped(w, false)).waiters[w] == Raised)
  {
    hide StateOf, ApplyWork, Active, AllEnded;
    if StateOf(config, run).waiters[w].Stopping? && p in StateOf(config, run).pools {
      PoolInvHolds(config, run, p);
      StopStops(StateOf(config, run).pools[p]);
    }
    hide WorkflowPool.Apply;
  }

  function AfterStorages(s: State, left: nat): Pc {
    if left > 0 then ClosingStorages(left) else if s.failure.Some? then Raised else Returned(true)
  }

  function AfterJoin(s: State, tracked: set<nat>): Pc {
    if tracked != {} then Joining(tracked) else AfterStorages(s, s.storages)
  }

  lemma StopStops(s: WorkflowPool.State)
    requires WorkflowPool.Inv(s)
    ensures WorkflowPool.Enabled(s, WorkflowPool.Stop) && WorkflowPool.Apply(s, WorkflowPool.Stop).stopped
  {
  }

  /** Something raised in the wait itself: its result failed, or the stop of a storage did. */
  ghost predicate OwnError(config: Config, run: Run<Event>, w: nat) {
    run.Then? && (OwnError(config, run.before, w) || run.event == ResultReady(w, false) || run.event == StorageStopped(w, false))
  }

  lemma RaisedOwn(s: State, e: Event)
    requires Enabled(s, e) && IsWait(e) && e.w in Apply(s, e).waiters && Apply(s, e).waiters[e.w].Raised?
    ensures Apply(s, e).failure.Some? || e == ResultReady(e.w, false) || e == StorageStopped(e.w, false)
  {
    RoundRaises(s, e.w, false);
    RoundRaises(s, e.w, true);
    if e.TasksWaited? && FailedAmong(s, s.waiters[e.w].tasks) != {} {
      RoundRaises(Record(s, s.outcomes[e.first].error), e.w, s.waiters[e.w].finishing);
    }
    hide Round, WorkflowPool.Apply, AllEnded, ApplyWork;
  }

  lemma RoundRaises(s: State, w: nat, finishing: bool)
    ensures var t := Round(s, w, finishing);
            t.failure == s.failure && w in t.waiters && (t.waiters[w].Raised? ==> s.failure.Some?)
  {
    hide Active;
  }

  lemma {:induction false} RaisedStep(s: State, e: Event, w: nat)
    requires Enabled(s, e) && WaitersOk(s) && w in Apply(s, e).waiters && Apply(s, e).waiters[w].Raised?
    ensures (w in s.waiters && s.waiters[w].Raised?) || Apply(s, e).failure.Some? || e == ResultReady(w, false) || e == StorageStopped(w, false)
  {
    hide Apply, Enabled, WaitersOk;
    if IsWait(e) {
      OwnStep(s, e);
      if w == e.w {
        RaisedOwn(s, e);
      }
    } else {
      OthersStep(s, e);
    }
  }

  /** A wait or `finish` raises only because a failure was recorded, or something raised in the wait itself. */
  lemma {:induction false} RaisesForCause(config: Config, run: Run<Event>, w: nat)
    requires w in StateOf(config, run).waiters && StateOf(config, run).waiters[w].Raised?
    ensures StateOf(config, run).failure.Some? || OwnError(config, run, w)
  {
    var s, e := StateOf(config, run.before), run.event;
    InvHolds(config, run.before);
    assert WaitersOk(s);
    hide Apply, Inv, WaitersOk;
    if Enabled(s, e) {
      RaisedStep(s, e, w);
      if s.failure.Some? {
        FailureStays(s, e);
      }
    }
    if w in s.waiters && s.waiters[w].Raised? {
      RaisesForCause(config, run.before, w);
    }
    hide Enabled;
  }

  // ---------------------------------------------------------------------------
  // A normal return hides no failure
  // ---------------------------------------------------------------------------

  /** Whatever ran in the graph and is no longer tracked ended without an error, and no pool item is left. */
  ghost predicate EndedFine(config: Config, run: Run<Event>) {
    var s := StateOf(config, run);
    && s.failure.None?
    && (forall t: nat :: t < s.created ==> t in s.tracked || (t in s.outcomes && !s.outcomes[t].Failed?))
    && (forall p <- config.pools, n: nat :: ItemFine(config, run, p, n))
  }

  ghost predicate ItemFine(config: Config, run: Run<Event>, p: PoolId, n: nat)
    requires p in config.pools
  {
    var h := ItemHistory(config, run, p, n);
    h == [] || (|h| == 3 && h[0].Accepted? && h[1] == WorkflowPool.Started(n)
                && h[2] == WorkflowPool.Ended(n, WorkflowPool.Fine))
  }

  /** Nothing is outstanding, and everything that ever ran in the graph ended without an error. */
  ghost predicate NothingHidden(config: Config, run: Run<Event>) {
    EndedFine(config, run) && StateOf(config, run).tracked == {}
  }

  lemma ItemsDone(config: Config, run: Run<Event>, p: PoolId, n: nat)
    requires StateOf(config, run).failure.None? && p in config.pools
    requires p in StateOf(config, run).pools && StateOf(config, run).pools[p].pending == 0
    ensures ItemFine(config, run, p, n)
  {
    PoolsRefine(config, run, p);
    WorkflowPool.IdleMeansDone(p.prioritized, config.pools[p], PoolRun(config, run, p), n);
    var h := ItemHistory(config, run, p, n);
    hide StateOf, WorkflowPool.StateOf, WorkflowPool.History, PoolRun;
    if h != [] && h[2].outcome.Failed? {
      assert WorkflowPool.Ended(n, h[2].outcome) in h;
      FailedItemIsReported(config, run, p, n, h[2].outcome);
    }
  }

  /** With idle pools and no recorded failure only a task that is still tracked can have failed. */
  lemma IdleHidesOnlyTracked(config: Config, run: Run<Event>)
    requires StateOf(config, run).failure.None? && Active(StateOf(config, run)) == {}
    ensures EndedFine(config, run)
  {
    InvHolds(config, run);
    forall p, n: nat | p in config.pools ensures ItemFine(config, run, p, n) {
      PoolsRefine(config, run, p);
      assert p !in Active(StateOf(config, run));
      ItemsDone(config, run, p, n);
    }
    hide StateOf, ItemHistory;
  }

  /** The step that ends a wait normally: the failure is absent and the pools are quiet; the tracked tasks are
      too, unless it is the stop of the last storage. */
  lemma ReturnIsQuiet(s: State, e: Event, w: nat)
    requires Enabled(s, e) && WaitersOk(s) && IsWait(e) && e.w == w
    requires w in Apply(s, e).waiters && Apply(s, e).waiters[w].Returned?
    ensures var t := Apply(s, e);
            && t.failure.None? && (Active(t) == {} || Stopped(t, {}))
            && (t.tracked == {} || (e.StorageStopped? && t.waiters[w].finishing))
  {
    RoundShape(s, w, false);
    RoundShape(s, w, true);
    if e.TasksWaited? {
      RoundShape(Record(s, if e.first in s.outcomes && s.outcomes[e.first].Failed? then s.outcomes[e.first].error else ""), w, s.waiters[w].finishing);
    } else if e.StopDone? || e.Joined? || e.StorageStopped? {
      assert WaiterOk(s, s.waiters[w]);
    }
    hide Round, Active, AllEnded;
  }

  /** The waiter returned normally as the newest event. */
  ghost predicate ReturnsNow(config: Config, run: Run<Event>, w: nat) {
    run.Then? && w in StateOf(config, run).waiters && StateOf(config, run).waiters[w].Returned? &&
    var s := StateOf(config, run.before);
    w !in s.waiters || !s.waiters[w].Returned?
  }

  lemma ReturnStep(config: Config, run: Run<Event>, w: nat)
    requires ReturnsNow(config, run, w)
    ensures EndedFine(config, run)
    ensures var t := StateOf(config, run);
            t.tracked == {} || (t.waiters[w].finishing && run.event == StorageStopped(w, true) && config.storages > 0)
    ensures StateOf(config, run).waiters[w].finishing ==> Stopped(StateOf(config, run), {})
  {
    var s, e := StateOf(config, run.before), run.event;
    InvHolds(config, run.before);
    InvHolds(config, run);
    StoragesAre(config, run.before);
    if IsWait(e) {
      OwnStep(s, e);
    } else if Enabled(s, e) {
      OthersStep(s, e);
    }
    assert IsWait(e) && e.w == w;
    ReturnIsQuiet(s, e, w);
    var t := StateOf(config, run);
    forall p | p in t.pools ensures t.pools[p].pending == 0 {
      assert p in Active(t) <==> t.pools[p].pending != 0;
      if t.pools[p].drain.Drained? {
        DrainedIsIdle(config, run, p);
      }
    }
    assert e.StorageStopped? ==> WaiterOk(s, s.waiters[w]);
    hide EndedFine, StateOf, Apply;
    IdleHidesOnlyTracked(config, run);
  }

  lemma {:induction false} StoragesAre(config: Config, run: Run<Event>)
    ensures StateOf(config, run).storages == config.storages
  {
    hide Apply, Enabled;
    if run.Then? {
      StoragesAre(config, run.before);
      if Enabled(StateOf(config, run.before), run.event) {
        StoragesStay(StateOf(config, run.before), run.event);
      }
    }
  }

  /** Whenever a wait for quiescence or for completion returns normally, no tracked task or pool item is
      outstanding, every one of them ended without an error, and no failure is recorded. */
  lemma NormalReturnHidesNoFailure(config: Config, run: Run<Event>, w: nat)
    requires ReturnsNow(config, run, w) && !StateOf(config, run).waiters[w].finishing
    ensures NothingHidden(config, run)
  {
    ReturnStep(config, run, w);
  }

  /** When `finish` returns normally, every pool is drained, no failure is recorded and only a task that is
      still tracked can be hidden.  So it hides nothing if and only if no task is tracked at its return; that
      is always so when there is no storage to stop. */
  lemma FinishHidesNothingIff(config: Config, run: Run<Event>, w: nat)
    requires ReturnsNow(config, run, w) && StateOf(config, run).waiters[w].finishing
    ensures EndedFine(config, run) && Stopped(StateOf(config, run), {})
    ensures NothingHidden(config, run) <==> StateOf(config, run).tracked == {}
    ensures config.storages == 0 ==> NothingHidden(config, run)
  {
    ReturnStep(config, run, w);
  }

  /** The waiter began to stop the storages as the newest event. */
  ghost predicate JoinsNow(config: Config, run: Run<Event>, w: nat) {
    run.Then? && w in StateOf(config, run).waiters && StateOf(config, run).waiters[w].ClosingStorages? &&
    var s := StateOf(config, run.before);
    w !in s.waiters || !s.waiters[w].ClosingStorages?
  }

  lemma RoundJoinsNone(s: State, w: nat, finishing: bool)
    ensures w in Round(s, w, finishing).waiters
    ensures Round(s, w, finishing).waiters[w].ClosingStorages? ==> s.tracked == {}
    ensures forall k <- Round(s, w, finishing).waiters :: k != w ==> k in s.waiters && Round(s, w, finishing).waiters[k] == s.waiters[k]
  {
    hide Active;
  }

  lemma JoinFindsNone(s: State, e: Event, w: nat)
    requires Enabled(s, e) && w in Apply(s, e).waiters && Apply(s, e).waiters[w].ClosingStorages?
    requires w !in s.waiters || !s.waiters[w].ClosingStorages?
    ensures Apply(s, e).tracked == {}
  {
    if !IsWait(e) {
      OthersStep(s, e);
    } else {
      WaitFrame(s, e);
      RoundJoinsNone(s, e.w, false);
      RoundJoinsNone(s, e.w, true);
      if e.TasksWaited? && FailedAmong(s, s.waiters[e.w].tasks) != {} {
        RoundJoinsNone(Record(s, s.outcomes[e.first].error), e.w, s.waiters[e.w].finishing);
      }
      hide Round, AllEnded, WorkflowPool.Apply;
    }
  }

  lemma NewTasksAreLater(s: State, e: Event, first: nat)
    requires Enabled(s, e) && first <= s.created && forall t <- s.tracked :: first <= t
    ensures first <= Apply(s, e).created && forall t <- Apply(s, e).tracked :: first <= t
  {
    hide WorkflowPool.Apply, Round, Join, Close, AllEnded;
    if IsWait(e) {
      WaitFrame(s, e);
    }
  }

  /** What `finish` can hide was created after it had joined the tracked tasks: at its return nothing is hidden
      if and only if every task created since then has left the tracked set. */
  lemma {:induction false} OnlyLateTasksCanHide(config: Config, run: Run<Event>, joined: Run<Event>, w: nat)
    requires ReturnsNow(config, run, w) && StateOf(config, run).waiters[w].finishing
    requires Extends(run, joined) && JoinsNow(config, joined, w)
    ensures NothingHidden(config, run) <==>
            forall t: nat :: StateOf(config, joined).created <= t < StateOf(config, run).created ==> t !in StateOf(config, run).tracked
  {
    FinishHidesNothingIff(config, run, w);
    TrackedSince(config, run, joined, w);
    InvHolds(config, run);
    hide StateOf, NothingHidden, JoinsNow, ReturnsNow, EndedFine, Stopped, WaitersOk;
    assert TasksOk(StateOf(config, run));
  }

  lemma {:induction false} TrackedSince(config: Config, run: Run<Event>, joined: Run<Event>, w: nat)
    requires Extends(run, joined) && JoinsNow(config, joined, w)
    ensures StateOf(config, joined).created <= StateOf(config, run).created
    ensures forall t <- StateOf(config, run).tracked :: StateOf(config, joined).created <= t
  {
    hide Apply, Enabled;
    if run == joined {
      JoinFindsNone(StateOf(config, run.before), run.event, w);
    } else {
      TrackedSince(config, run.before, joined, w);
      if Enabled(StateOf(config, run.before), run.event) {
        NewTasksAreLater(StateOf(config, run.before), run.event, StateOf(config, joined).created);
      }
    }
  }

  /** A task is created while the one storage of an environment stops, and its failure comes after the return. */
  ghost function HiddenTaskRun(): Run<Event> {
    Then(Then(Then(Start, BeginFinish(0)), CreateTask(Outside)), StorageStopped(0, true))
  }

  /** A normal return of `finish` can hide a task, whose later failure nobody is told. */
  lemma {:induction false} FinishCanHideATask(error: string)
    ensures var config, run := Config(map[], 1), HiddenTaskRun();
            && ReturnsNow(config, run, 0) && StateOf(config, run).waiters[0] == Returned(true)
            && StateOf(config, run).tracked == {0} && !NothingHidden(config, run)
            && var later := StateOf(config, Then(Then(run, TaskEnds(0, Failed(error))), Callback(0)));
               later.failure == Some(error) && later.waiters == map[0 := Returned(true)]
  {
    var config := Config(map[], 1);
    var r1 := Then(Start, BeginFinish(0));
    var r2 := Then(r1, CreateTask(Outside));
    var r3 := HiddenTaskRun();
    assert Active(Initial(config)) == {};
    var s1 := Initial(config).(waiters := map[0 := ClosingStorages(1)]);
    assert StateOf(config, r1) == s1;
    assert StateOf(config, r2) == s1.(created := 1, tracked := {0});
    var s3 := s1.(created := 1, tracked := {0}, waiters := map[0 := Returned(true)]);
    assert StateOf(config, r3) == s3;
    var r4 := Then(r3, TaskEnds(0, Failed(error)));
    assert StateOf(config, r4) == s3.(outcomes := map[0 := Failed(error)]);
  }

  lemma DrainedIsIdle(config: Config, run: Run<Event>, p: PoolId)
    requires p in StateOf(config, run).pools && StateOf(config, run).pools[p].drain.Drained?
    ensures StateOf(config, run).pools[p].pending == 0
  {
    KeysAre(config, run);
    PoolsRefine(config, run, p);
    WorkflowPool.InvHolds(p.prioritized, config.pools[p], PoolRun(config, run, p));
  }

  lemma {:induction false} KeysAre(config: Config, run: Run<Event>)
    ensures StateOf(config, run).pools.Keys == config.pools.Keys
  {
    hide Apply, Enabled;
    if run.Then? {
      KeysAre(config, run.before);
      if Enabled(StateOf(config, run.before), run.event) {
        KeysStay(StateOf(config, run.before), run.event);
      }
    }
  }

  // ---------------------------------------------------------------------------
  // Quiescence is exactly the absence of graph work
  // ---------------------------------------------------------------------------

  /** Work of the graph itself: its tasks, its items and what they create. */
  predicate IsGraphWork(s: State, e: Event) {
    match e
    case CreateTask(parent) => !parent.Outside?
    case TaskEnds(_, _) => true
    case Callback(_) => true
    case InPool(p, pe, parent) =>
      p in s.pools && WorkflowPool.Enabled(s.pools[p], pe) &&
      (match pe
       case Add(_, _) => !parent.Outside?
       case BodyDone(_, _) => true
       case Resume(_) => true
       case Get(_) => s.pools[p].queue[WorkflowPool.Choice(s.pools[p])].work
       case _ => false)
    case _ => false
  }

  /** The wait's test is exact: the graph is quiescent if and only if none of its own work can happen. */
  lemma QuiescentIffNoWork(config: Config, run: Run<Event>)
    ensures var s := StateOf(config, run);
            Quiescent(s) <==> !exists e :: Enabled(s, e) && IsGraphWork(s, e)
  {
    var s := StateOf(config, run);
    if !Quiescent(s) {
      if s.tracked != {} {
        var t :| t in s.tracked;
        var e := if t in s.outcomes then Callback(t) else TaskEnds(t, Fine);
        assert Enabled(s, e) && IsGraphWork(s, e);
      } else {
        var p :| p in Active(s);
        PoolInvHolds(config, run, p);
        var pe := WorkflowPool.PendingMakesProgress(s.pools[p]);
        assert Enabled(s, InPool(p, pe, Outside)) && IsGraphWork(s, InPool(p, pe, Outside));
      }
    } else {
      forall p | p in s.pools ensures PoolQuiet(s.pools[p]) {
        PoolInvHolds(config, run, p);
        PendingIsAll(s.pools[p]);
        assert p !in Active(s);
      }
      forall e ensures !(Enabled(s, e) && IsGraphWork(s, e)) {
        QuietPoolsDoNothing(s, e);
      }
    }
  }

  lemma PoolInvHolds(config: Config, run: Run<Event>, p: PoolId)
    requires p in StateOf(config, run).pools
    ensures WorkflowPool.Inv(StateOf(config, run).pools[p])
  {
    KeysAre(config, run);
    PoolsRefine(config, run, p);
    WorkflowPool.InvHolds(p.prioritized, config.pools[p], PoolRun(config, run, p));
  }

  /** No work is queued and no executor holds an item. */
  predicate PoolQuiet(s: WorkflowPool.State) {
    (forall k :: 0 <= k < |s.queue| ==> !s.queue[k].work) &&
    (forall x :: 0 <= x < |s.executors| ==> !WorkflowPool.Holds(s.executors[x]))
  }

  lemma PendingIsAll(s: WorkflowPool.State)
    requires WorkflowPool.Inv(s)
    ensures s.pending == 0 ==> PoolQuiet(s)
  {
    WorkflowPool.CountBounds(s.executors);
    hide WorkflowPool.Held, WorkflowPool.Alive;
  }

  lemma QuietPoolsDoNothing(s: State, e: Event)
    requires Quiescent(s) && forall p <- s.pools :: PoolQuiet(s.pools[p])
    ensures !(Enabled(s, e) && IsGraphWork(s, e))
  {
    hide WorkflowPool.Choice, WaitEnabled;
  }

  // ---------------------------------------------------------------------------
  // The environment object
  // ---------------------------------------------------------------------------

  /** The environment's fields, the views of its pools, and the waits suspended in it.  Each method is
      the code between two suspension points. */
  class WorkflowEnvironment {
    var failure: Option<string>
    var pools: map<PoolId, WorkflowPool.State>
    const storages: nat
    var created: nat
    var tasks: set<nat>
    var outcomes: map<nat, Outcome>
    var waiters: map<nat, Pc>

    constructor (config: Config)
      ensures View() == Initial(config)
    {
      failure, storages := None, config.storages;
      pools := map p | p in config.pools :: WorkflowPool.Initial(p.prioritized, config.pools[p]);
      created, tasks, outcomes, waiters := 0, {}, map[], map[];
    }

    function View(): State
      reads this
    {
      State(failure, pools, storages, created, tasks, outcomes, waiters)
    }

    method RecordFailure(error: string)
      modifies this`failure
      ensures View() == Record(old(View()), error)
    {
      if failure.None? {
        failure := Some(error);
      }
    }

    method AddTask(parent: Parent) returns (t: nat)
      requires Enabled(View(), CreateTask(parent))
      modifies this
      ensures View() == Apply(old(View()), CreateTask(parent)) && t == old(created)
    {
      t := created;
      created := created + 1;
      tasks := tasks + {t};
    }

    /** The done callback of a tracked task: a cancelled task reports nothing. */
    method CompleteTask(t: nat)
      requires Enabled(View(), Callback(t))
      modifies this
      ensures View() == Apply(old(View()), Callback(t))
    {
      tasks := tasks - {t};
      if outcomes[t].Failed? {
        RecordFailure(outcomes[t].error);
      }
    }

    /** `has_work` over all pools. */
    method ActivePools() returns (active: set<PoolId>)
      ensures active == Active(View())
    {
      active := {};
      var rest := pools.Keys;
      while rest != {}
        invariant rest <= pools.Keys
        invariant active == set p | p in pools && p !in rest && pools[p].pending != 0
        decreases |rest|
      {
        var p :| p in rest;
        rest := rest - {p};
        if pools[p].pending != 0 {
          active := active + {p};
        }
      }
    }

    /** The next storage to stop, or the end: the failure is raised. */
    method StopStorages(w: nat, left: nat)
      modifies this`waiters
      ensures View() == Close(old(View()), w, left)
    {
      if left > 0 {
        waiters := waiters[w := ClosingStorages(left)];
      } else if failure.Some? {
        waiters := waiters[w := Raised];
      } else {
        waiters := waiters[w := Returned(true)];
      }
    }

    method JoinTasks(w: nat)
      modifies this`waiters
      ensures View() == Join(old(View()), w)
    {
      if tasks != {} {
        waiters := waiters[w := Joining(tasks)];
      } else {
        StopStorages(w, storages);
      }
    }

    /** A storage has stopped, or its stop raised. */
    method StorageDone(w: nat, ok: bool)
      requires Enabled(View(), StorageStopped(w, ok))
      modifies this`waiters
      ensures View() == Apply(old(View()), StorageStopped(w, ok))
    {
      if ok {
        StopStorages(w, waiters[w].left - 1);
      } else {
        waiters := waiters[w := Raised];
      }
    }

    /** One round of the quiescence loop. */
    method WaitRound(w: nat, finishing: bool)
      modifies this`waiters
      ensures View() == Round(old(View()), w, finishing)
    {
      if failure.Some? {
        waiters := waiters[w := Raised];
        return;
      }
      var active := ActivePools();
      if tasks == {} && active == {} {
        if !finishing {
          waiters := waiters[w := Returned(false)];
        } else if pools == map[] {
          JoinTasks(w);
        } else {
          waiters := waiters[w := Stopping(pools.Keys)];
        }
      } else if tasks != {} {
        waiters := waiters[w := AwaitingTasks(tasks, active, finishing)];
      } else {
        waiters := waiters[w := AwaitingPools(active, finishing)];
      }
    }

    /** The awaited tasks are done, in any order: record their failures, then wait for the pools. */
    method TasksDone(w: nat) returns (first: nat)
      requires w in waiters && waiters[w].AwaitingTasks? && AllEnded(View(), waiters[w].tasks)
      modifies this
      ensures Enabled(old(View()), TasksWaited(w, first)) && View() == Apply(old(View()), TasksWaited(w, first))
    {
      var done, active, finishing := waiters[w].tasks, waiters[w].pools, waiters[w].finishing;
      ghost var was := View();
      ghost var bad := FailedAmong(was, done);
      var rest, found := done, false;
      first := 0;
      while rest != {}
        invariant rest <= done && (found <==> exists t <- bad :: t !in rest)
        invariant found ==> first in bad
        invariant View() == if found then Record(was, was.outcomes[first].error) else was
        decreases |rest|
      {
        var t :| t in rest;
        rest := rest - {t};
        if outcomes[t].Failed? {
          RecordFailure(outcomes[t].error);
          if !found {
            first, found := t, true;
          }
        }
      }
      assert found <==> bad != {};
      if active == {} {
        WaitRound(w, finishing);
      } else {
        waiters := waiters[w := AwaitingPools(active, finishing)];
      }
    }

    /** The caller of `wait_for_completion` resumes with a result, or because of the failure. */
    method ResultArrived(w: nat, ok: bool)
      requires Enabled(View(), ResultReady(w, ok))
      modifies this`waiters
      ensures View() == Apply(old(View()), ResultReady(w, ok))
    {
      if failure.Some? {
        waiters := waiters[w := Raised];
      } else if !ok {
        waiters := waiters[w := Raised];
      } else {
        WaitRound(w, false);
      }
    }
  }
}
