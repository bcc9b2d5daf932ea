/** The task pools of one Workflow execution: a fixed number of executors over a queue that is first-in
    first-out or ordered by (priority, sequence), with pending/idle accounting and a shutdown that puts
    one sentinel per executor once the pool is idle. */
module WorkflowPool {
  import opened Runs

  datatype Outcome = Fine | Failed(error: string)

  /** A queued work item, or a shutdown sentinel. */
  datatype Entry = Entry(priority: int, number: nat, work: bool)

  /** Where an executor is suspended. */
  datatype Pc =
    | Waiting
    | Busy(number: nat)                       // the item's own task runs
    | Done(number: nat, outcome: Outcome)     // it ended; the executor has not resumed yet
    | Exited

  datatype Drain = Open | AwaitingIdle | Gathering | Drained

  datatype State = State(
    prioritized: bool,
    count: nat,
    queue: seq<Entry>,
    sequence: nat,
    pending: int,
    idle: bool,
    started: bool,
    stopped: bool,
    executors: seq<Pc>,
    drain: Drain)

  /** A new pool.  The configured count is never negative, and at least one executor is used. */
  function Initial(prioritized: bool, configured: nat): State {
    State(prioritized, if configured == 0 then 1 else configured, [], 0, 0, true, false, false, [], Open)
  }

  datatype Event =
    | StartUp
    | Add(priority: int, cancelled: bool)
    | Stop
    | PutSentinels
    | GatherDone
    | Get(x: nat)
    | BodyDone(x: nat, outcome: Outcome)
    | Resume(x: nat)

  predicate Enabled(s: State, e: Event) {
    match e
    case StartUp => true
    case Add(_, _) => true
    case Stop => true
    case PutSentinels => s.drain.AwaitingIdle? && s.idle
    case GatherDone => s.drain.Gathering? && forall x :: 0 <= x < |s.executors| ==> s.executors[x].Exited?
    case Get(x) => x < |s.executors| && s.executors[x].Waiting? && s.queue != []
    case BodyDone(x, _) => x < |s.executors| && s.executors[x].Busy?
    case Resume(x) => x < |s.executors| && s.executors[x].Done?
  }

  predicate Before(a: Entry, b: Entry) {
    a.priority < b.priority || (a.priority == b.priority && a.number < b.number)
  }

  /** What a priority queue hands out: its least entry. */
  function Least(q: seq<Entry>): (k: nat)
    requires q != []
    ensures k < |q| && forall j :: 0 <= j < |q| ==> !Before(q[j], q[k])
  {
    if |q| == 1 then 0
    else
      var k := Least(q[..|q| - 1]);
      if Before(q[|q| - 1], q[k]) then |q| - 1 else k
  }

  function Choice(s: State): (k: nat)
    requires s.queue != []
    ensures k < |s.queue|
  {
    if s.prioritized then Least(s.queue) else 0
  }

  function Without(q: seq<Entry>, k: nat): seq<Entry>
    requires k < |q|
  {
    q[..k] + q[k + 1..]
  }

  function Sentinels(first: nat, n: nat): seq<Entry> {
    seq(n, i requires 0 <= i => Entry(2, first + i, false))
  }

  predicate Accepts(s: State, e: Event) {
    e.Add? && !e.cancelled && s.started && !s.stopped
  }

  function PriorityOf(s: State, e: Event): int
    requires e.Add?
  {
    if s.prioritized then e.priority else 1
  }

  function With(s: State, x: nat, pc: Pc): State
    requires x < |s.executors|
  {
    s.(executors := s.executors[x := pc])
  }

  function Apply(s: State, e: Event): State
    requires Enabled(s, e)
  {
    match e
    case StartUp =>
      if s.started || s.stopped then s else s.(started := true, executors := seq(s.count, _ => Waiting))
    case Add(_, _) =>
      if !Accepts(s, e) then s
      else s.(pending := s.pending + 1, idle := false, sequence := s.sequence + 1,
              queue := s.queue + [Entry(PriorityOf(s, e), s.sequence, true)])
    case Stop => if s.drain.Open? then s.(stopped := true, drain := AwaitingIdle) else s
    case PutSentinels =>
      s.(queue := s.queue + Sentinels(s.sequence, |s.executors|), sequence := s.sequence + |s.executors|, drain := Gathering)
    case GatherDone => s.(drain := Drained)
    case Get(x) =>
      var entry := s.queue[Choice(s)];
      With(s, x, if entry.work then Busy(entry.number) else Exited).(queue := Without(s.queue, Choice(s)))
    case BodyDone(x, outcome) => With(s, x, Done(s.executors[x].number, outcome))
    case Resume(x) => With(s, x, Waiting).(pending := s.pending - 1, idle := s.idle || s.pending - 1 == 0)
  }

  // ---------------------------------------------------------------------------
  // Invariant
  // ---------------------------------------------------------------------------

  predicate Holds(pc: Pc) {
    pc.Busy? || pc.Done?
  }

  function Held(pcs: seq<Pc>): nat {
    if pcs == [] then 0 else Held(pcs[..|pcs| - 1]) + if Holds(pcs[|pcs| - 1]) then 1 else 0
  }

  function Alive(pcs: seq<Pc>): nat {
    if pcs == [] then 0 else Alive(pcs[..|pcs| - 1]) + if pcs[|pcs| - 1].Exited? then 0 else 1
  }

  function Works(q: seq<Entry>): nat {
    if q == [] then 0 else Works(q[..|q| - 1]) + if q[|q| - 1].work then 1 else 0
  }

  predicate SentinelsIn(s: State) {
    s.drain.Gathering? || s.drain.Drained?
  }

  ghost predicate QueueOk(s: State) {
    && (forall k :: 0 <= k < |s.queue| ==> s.queue[k].number < s.sequence && (s.queue[k].work <==> !SentinelsIn(s)))
    && (forall j, k :: 0 <= j < k < |s.queue| ==> s.queue[j].number < s.queue[k].number)
    && (!s.prioritized ==> forall k :: 0 <= k < |s.queue| && s.queue[k].work ==> s.queue[k].priority == 1)
    && (forall k :: 0 <= k < |s.queue| && !s.queue[k].work ==> s.queue[k].priority == 2)
  }

  ghost predicate ExecutorsOk(s: State) {
    && (forall x :: 0 <= x < |s.executors| && Holds(s.executors[x]) ==>
          s.executors[x].number < s.sequence && forall k :: 0 <= k < |s.queue| ==> s.queue[k].number != s.executors[x].number)
    && (forall x, y :: 0 <= x < y < |s.executors| && Holds(s.executors[x]) && Holds(s.executors[y]) ==>
          s.executors[x].number != s.executors[y].number)
  }

  ghost predicate CountsOk(s: State) {
    && s.count > 0
    && (s.stopped <==> !s.drain.Open?)
    && (s.idle <==> s.pending == 0)
    && (if s.started then |s.executors| == s.count else s.executors == [] && s.queue == [])
    && (if SentinelsIn(s) then s.pending == 0 && Held(s.executors) == 0 && |s.queue| == Alive(s.executors)
        else s.pending == |s.queue| + Held(s.executors) && Alive(s.executors) == |s.executors|)
    && (s.drain.Drained? ==> s.queue == [] && forall x :: 0 <= x < |s.executors| ==> s.executors[x].Exited?)
  }

  ghost predicate Inv(s: State) {
    QueueOk(s) && ExecutorsOk(s) && CountsOk(s)
  }

  lemma {:induction false} CountUpdate(pcs: seq<Pc>, x: nat, pc: Pc)
    requires x < |pcs|
    ensures Held(pcs[x := pc]) == Held(pcs) - (if Holds(pcs[x]) then 1 else 0) + if Holds(pc) then 1 else 0
    ensures Alive(pcs[x := pc]) == Alive(pcs) + (if pcs[x].Exited? then 1 else 0) - if pc.Exited? then 1 else 0
  {
    var last := |pcs| - 1;
    if x == last {
      assert pcs[x := pc][..last] == pcs[..last];
    } else {
      CountUpdate(pcs[..last], x, pc);
      assert pcs[x := pc][..last] == pcs[..last][x := pc];
    }
  }

  lemma {:induction false} CountBounds(pcs: seq<Pc>)
    ensures Held(pcs) <= Alive(pcs) <= |pcs|
    ensures (forall x :: 0 <= x < |pcs| ==> pcs[x].Waiting?) ==> Held(pcs) == 0 && Alive(pcs) == |pcs|
    ensures (Held(pcs) == 0 <==> forall x :: 0 <= x < |pcs| ==> !Holds(pcs[x]))
    ensures (Alive(pcs) == 0 <==> forall x :: 0 <= x < |pcs| ==> pcs[x].Exited?)
    ensures (Alive(pcs) == |pcs| <==> forall x :: 0 <= x < |pcs| ==> !pcs[x].Exited?)
  {
    if pcs != [] {
      CountBounds(pcs[..|pcs| - 1]);
      assert forall x :: 0 <= x < |pcs| ==> x == |pcs| - 1 || pcs[x] == pcs[..|pcs| - 1][x];
    }
  }

  lemma {:induction false} WorksBounds(q: seq<Entry>)
    ensures (forall k :: 0 <= k < |q| ==> q[k].work) ==> Works(q) == |q|
    ensures (forall k :: 0 <= k < |q| ==> !q[k].work) ==> Works(q) == 0
  {
    if q != [] {
      WorksBounds(q[..|q| - 1]);
    }
  }

  lemma ControlKeepsInv(s: State, e: Event)
    requires Inv(s) && Enabled(s, e) && (e.StartUp? || e.Stop? || e.GatherDone?)
    ensures Inv(Apply(s, e))
  {
    hide Held, Alive;
    CountBounds(s.executors);
    CountBounds(Apply(s, e).executors);
  }

  lemma AddKeepsInv(s: State, e: Event)
    requires Inv(s) && e.Add?
    ensures Inv(Apply(s, e))
  {
    hide Held, Alive;
  }

  lemma PutSentinelsKeepsInv(s: State)
    requires Inv(s) && Enabled(s, PutSentinels)
    ensures s.queue == [] && Inv(Apply(s, PutSentinels))
  {
    hide Held, Alive;
    CountBounds(s.executors);
  }

  lemma GetKeepsQueue(s: State, x: nat)
    requires QueueOk(s) && Enabled(s, Get(x))
    ensures QueueOk(Apply(s, Get(x)))
  {
    var t := Apply(s, Get(x));
    var k := Choice(s);
    hide Least, Choice;
    assert forall j :: 0 <= j < |t.queue| ==> t.queue[j] == s.queue[if j < k then j else j + 1];
  }

  lemma GetKeepsExecutors(s: State, x: nat)
    requires QueueOk(s) && ExecutorsOk(s) && Enabled(s, Get(x))
    ensures ExecutorsOk(Apply(s, Get(x)))
  {
    var t := Apply(s, Get(x));
    var k := Choice(s);
    hide Least, Choice;
    assert forall j :: 0 <= j < |t.queue| ==> t.queue[j] == s.queue[if j < k then j else j + 1];
  }

  lemma GetKeepsCounts(s: State, x: nat)
    requires QueueOk(s) && CountsOk(s) && Enabled(s, Get(x))
    ensures CountsOk(Apply(s, Get(x)))
  {
    var t := Apply(s, Get(x));
    CountUpdate(s.executors, x, t.executors[x]);
    hide Held, Alive, Least, Choice;
  }

  lemma WorkKeepsQueue(s: State, e: Event)
    requires QueueOk(s) && ExecutorsOk(s) && Enabled(s, e) && (e.BodyDone? || e.Resume?)
    ensures QueueOk(Apply(s, e)) && ExecutorsOk(Apply(s, e))
  {
  }

  lemma WorkKeepsCounts(s: State, e: Event)
    requires CountsOk(s) && Enabled(s, e) && (e.BodyDone? || e.Resume?)
    ensures CountsOk(Apply(s, e))
  {
    CountUpdate(s.executors, e.x, Apply(s, e).executors[e.x]);
    CountBounds(s.executors);
    hide Held, Alive;
  }

  lemma {:induction false} StepKeepsInv(s: State, e: Event)
    requires Inv(s) && Enabled(s, e)
    ensures Inv(Apply(s, e)) && Apply(s, e).prioritized == s.prioritized
  {
    hide QueueOk, ExecutorsOk, CountsOk;
    match e
    case Add(_, _) => AddKeepsInv(s, e);
    case PutSentinels => PutSentinelsKeepsInv(s);
    case Get(x) =>
      GetKeepsQueue(s, x);
      GetKeepsExecutors(s, x);
      GetKeepsCounts(s, x);
    case BodyDone(_, _) =>
      WorkKeepsQueue(s, e);
      WorkKeepsCounts(s, e);
    case Resume(_) =>
      WorkKeepsQueue(s, e);
      WorkKeepsCounts(s, e);
    case _ => ControlKeepsInv(s, e);
  }

  // ---------------------------------------------------------------------------
  // Runs
  // ---------------------------------------------------------------------------

  /** The state after a run.  An event whose guard does not hold cannot happen and changes nothing. */
  ghost function StateOf(prioritized: bool, configured: nat, run: Run<Event>): State {
    if run.Start? then Initial(prioritized, configured)
    else
      var s := StateOf(prioritized, configured, run.before);
      if Enabled(s, run.event) then Apply(s, run.event) else s
  }

  lemma InitialInv(prioritized: bool, configured: nat)
    ensures Inv(Initial(prioritized, configured))
  {
  }

  lemma {:induction false} InvHolds(prioritized: bool, configured: nat, run: Run<Event>)
    ensures Inv(StateOf(prioritized, configured, run)) && StateOf(prioritized, configured, run).prioritized == prioritized
  {
    hide Apply, Enabled, Inv;
    if run.Start? {
      InitialInv(prioritized, configured);
    } else {
      InvHolds(prioritized, configured, run.before);
      if Enabled(StateOf(prioritized, configured, run.before), run.event) {
        StepKeepsInv(StateOf(prioritized, configured, run.before), run.event);
      }
    }
  }

  /** `_pending` counts the queued and the running items, and the idle flag is set exactly when it is 0. */
  lemma PendingIsQueuedPlusRunning(prioritized: bool, configured: nat, run: Run<Event>)
    ensures var s := StateOf(prioritized, configured, run);
            s.pending == Works(s.queue) + Held(s.executors) && (s.idle <==> s.pending == 0)
  {
    InvHolds(prioritized, configured, run);
    WorksBounds(StateOf(prioritized, configured, run).queue);
  }

  /** Sentinels enter only an empty queue that takes no more items, whatever priorities the items had. */
  lemma SentinelsEnterAnEmptyClosedQueue(prioritized: bool, configured: nat, run: Run<Event>, e: Event)
    requires Enabled(StateOf(prioritized, configured, run), PutSentinels)
    ensures var s := StateOf(prioritized, configured, run); s.queue == [] && Held(s.executors) == 0 && !Accepts(s, e)
  {
    InvHolds(prioritized, configured, run);
    PutSentinelsKeepsInv(StateOf(prioritized, configured, run));
  }

  /** What an executor takes is the least (priority, sequence) of what is queued, in either kind of pool. */
  lemma DispatchIsLeast(prioritized: bool, configured: nat, run: Run<Event>, k: nat)
    requires k < |StateOf(prioritized, configured, run).queue|
    ensures var s := StateOf(prioritized, configured, run); k == Choice(s) || Before(s.queue[Choice(s)], s.queue[k])
  {
    InvHolds(prioritized, configured, run);
    hide Least;
    var s := StateOf(prioritized, configured, run);
    var c := Choice(s);
    assert s.queue[c].number == s.queue[k].number ==> c == k;
  }

  // ---------------------------------------------------------------------------
  // The life of one item
  // ---------------------------------------------------------------------------

  datatype Mark =
    | Accepted(number: nat, priority: int)
    | Started(number: nat)
    | Ended(number: nat, outcome: Outcome)

  function Seen(s: State, e: Event, n: nat): seq<Mark> {
    if !Enabled(s, e) then []
    else match e
      case Add(_, _) => if Accepts(s, e) && n == s.sequence then [Accepted(n, PriorityOf(s, e))] else []
      case Get(_) => (var entry := s.queue[Choice(s)]; if entry.work && entry.number == n then [Started(n)] else [])
      case BodyDone(x, outcome) => if s.executors[x].number == n then [Ended(n, outcome)] else []
      case _ => []
  }

  ghost function History(prioritized: bool, configured: nat, run: Run<Event>, n: nat): seq<Mark> {
    if run.Start? then []
    else History(prioritized, configured, run.before, n) + Seen(StateOf(prioritized, configured, run.before), run.event, n)
  }

  ghost predicate Queued(s: State, n: nat) {
    exists k :: 0 <= k < |s.queue| && s.queue[k].number == n && s.queue[k].work
  }

  ghost predicate Running(s: State, n: nat) {
    Busy(n) in s.executors
  }

  /** An item is accepted, then started, then ended, each once; and the pool holds it accordingly. */
  ghost predicate Life(s: State, n: nat, h: seq<Mark>) {
    || (h == [] && !Queued(s, n) && !Running(s, n))
    || (|h| == 1 && h[0].Accepted? && h[0].number == n && Entry(h[0].priority, n, true) in s.queue && !Running(s, n))
    || (|h| == 2 && h[0].Accepted? && h[0].number == n && h[1] == Started(n) && !Queued(s, n) && Running(s, n))
    || (|h| == 3 && h[0].Accepted? && h[0].number == n && h[1] == Started(n) && h[2].Ended? && h[2].number == n
        && !Queued(s, n) && !Running(s, n) && n < s.sequence)
  }

  lemma QueueOtherwise(s: State, e: Event, n: nat)
    requires Enabled(s, e) && Seen(s, e, n) == [] && !e.Get?
    ensures var t := Apply(s, e);
            && s.queue <= t.queue
            && forall k :: |s.queue| <= k < |t.queue| ==> t.queue[k].number != n || !t.queue[k].work
  {
    hide Choice;
  }

  lemma RunningOtherwise(s: State, e: Event, n: nat)
    requires Enabled(s, e) && Seen(s, e, n) == [] && !e.Get? && (!s.started ==> s.executors == [])
    ensures Running(Apply(s, e), n) <==> Running(s, n)
  {
    hide Choice, Accepts;
    var t := Apply(s, e);
    assert forall y :: 0 <= y < |s.executors| && s.executors[y] == Busy(n) ==> t.executors[y] == Busy(n);
  }

  /** Steps that do not concern an item leave it where it is. */
  lemma LifeOfOthers(s: State, e: Event, n: nat, h: seq<Mark>)
    requires Inv(s) && Enabled(s, e) && Seen(s, e, n) == [] && Life(s, n, h) && !e.Get?
    ensures Life(Apply(s, e), n, h)
  {
    ExecutorsStay(s);
    QueueOtherwise(s, e, n);
    RunningOtherwise(s, e, n);
    var t := Apply(s, e);
    assert t.sequence >= s.sequence;
    assert Queued(s, n) ==> Queued(t, n);
    assert Queued(t, n) ==> Queued(s, n);
    assert forall p :: Entry(p, n, true) in s.queue ==> Entry(p, n, true) in t.queue;
    hide Inv, Apply, Enabled, Seen, Queued, Running;
  }

  lemma LifeAccepted(s: State, e: Event, n: nat, h: seq<Mark>)
    requires Inv(s) && Accepts(s, e) && n == s.sequence && Life(s, n, h)
    ensures h == [] && Life(Apply(s, e), n, Seen(s, e, n))
  {
    hide Choice;
    var t := Apply(s, e);
    assert t.queue[|s.queue|].number == n;
    assert !Queued(s, n);
    assert !Running(s, n);
  }

  predicate Takes(s: State, n: nat)
    requires s.queue != []
  {
    s.queue[Choice(s)].work && s.queue[Choice(s)].number == n
  }

  lemma WithoutEntries(q: seq<Entry>, k: nat, entry: Entry)
    requires k < |q| && forall i, j :: 0 <= i < j < |q| ==> q[i].number < q[j].number
    ensures entry in Without(q, k) <==> entry in q && entry.number != q[k].number
  {
    var r := Without(q, k);
    assert forall j :: 0 <= j < |r| ==> r[j] == q[if j < k then j else j + 1];
    assert forall j :: 0 <= j < |q| && j != k ==> q[j] == r[if j < k then j else j - 1];
  }

  lemma QueuedMeans(s: State, n: nat)
    ensures Queued(s, n) <==> exists p :: Entry(p, n, true) in s.queue
  {
    if Queued(s, n) {
      var k :| 0 <= k < |s.queue| && s.queue[k].number == n && s.queue[k].work;
      assert s.queue[k] == Entry(s.queue[k].priority, n, true);
    }
  }

  lemma QueueAfterGet(s: State, x: nat, n: nat)
    requires QueueOk(s) && Enabled(s, Get(x))
    ensures var t := Apply(s, Get(x));
            && (Queued(t, n) <==> Queued(s, n) && !Takes(s, n))
            && (forall p :: !Takes(s, n) && Entry(p, n, true) in s.queue ==> Entry(p, n, true) in t.queue)
  {
    var t := Apply(s, Get(x));
    QueuedMeans(s, n);
    QueuedMeans(t, n);
    forall p ensures Entry(p, n, true) in t.queue <==> Entry(p, n, true) in s.queue && s.queue[Choice(s)].number != n {
      WithoutEntries(s.queue, Choice(s), Entry(p, n, true));
    }
    assert forall j, k :: 0 <= j < |s.queue| && 0 <= k < |s.queue| && s.queue[j].number == s.queue[k].number ==> j == k;
    hide Choice, Least, Without, Queued;
  }

  lemma RunningAfterGet(s: State, x: nat, n: nat)
    requires Enabled(s, Get(x))
    ensures Running(Apply(s, Get(x)), n) <==> Running(s, n) || Takes(s, n)
  {
    var t := Apply(s, Get(x));
    hide Choice, Least;
    assert Takes(s, n) ==> t.executors[x] == Busy(n);
    assert forall y :: 0 <= y < |s.executors| && s.executors[y] == Busy(n) ==> t.executors[y] == Busy(n);
  }

  /** An item that can be taken waits in the queue. */
  lemma TakesQueued(s: State, n: nat)
    requires s.queue != [] && Takes(s, n)
    ensures Queued(s, n)
  {
  }

  lemma LifeGet(s: State, x: nat, n: nat, h: seq<Mark>)
    requires Inv(s) && Enabled(s, Get(x)) && Life(s, n, h)
    ensures Life(Apply(s, Get(x)), n, h + Seen(s, Get(x), n))
  {
    QueueAfterGet(s, x, n);
    RunningAfterGet(s, x, n);
    if Takes(s, n) {
      TakesQueued(s, n);
    }
    assert h + [] == h;
    hide Choice, Least, Inv, Running, Queued;
  }

  lemma LifeEnded(s: State, e: Event, n: nat, h: seq<Mark>)
    requires Inv(s) && Enabled(s, e) && e.BodyDone? && s.executors[e.x].number == n && Life(s, n, h)
    ensures |h| == 2 && Life(Apply(s, e), n, h + Seen(s, e, n))
  {
    hide Choice, CountsOk;
    assert Running(s, n);
  }

  lemma {:induction false} LifeHolds(prioritized: bool, configured: nat, run: Run<Event>, n: nat)
    ensures Life(StateOf(prioritized, configured, run), n, History(prioritized, configured, run, n))
  {
    hide Inv, Life, Apply, Queued, Running;
    if run.Start? {
      LifeAtStart(prioritized, configured, n);
    } else {
      LifeHolds(prioritized, configured, run.before, n);
      InvHolds(prioritized, configured, run.before);
      var s, e, h := StateOf(prioritized, configured, run.before), run.event, History(prioritized, configured, run.before, n);
      assert h + [] == h;
      if Enabled(s, e) {
        if e.Get? {
          LifeGet(s, e.x, n, h);
        } else if Accepts(s, e) && n == s.sequence {
          LifeAccepted(s, e, n, h);
          assert [] + Seen(s, e, n) == Seen(s, e, n);
        } else if e.BodyDone? && s.executors[e.x].number == n {
          LifeEnded(s, e, n, h);
        } else {
          LifeOfOthers(s, e, n, h);
        }
      }
    }
  }

  lemma LifeAtStart(prioritized: bool, configured: nat, n: nat)
    ensures Life(Initial(prioritized, configured), n, [])
  {
  }

  /** Items of one priority start in the order in which they were accepted. */
  lemma {:induction false} FirstInFirstOutWithinAPriority(prioritized: bool, configured: nat, run: Run<Event>, a: nat, b: nat, p: int)
    requires a < b
    requires Accepted(a, p) in History(prioritized, configured, run, a)
    requires Accepted(b, p) in History(prioritized, configured, run, b)
    requires Started(b) in History(prioritized, configured, run, b)
    ensures Started(a) in History(prioritized, configured, run, a)
  {
    LifeHolds(prioritized, configured, run, a);
    if Started(a) !in History(prioritized, configured, run, a) {
      LaterIsNotStarted(prioritized, configured, run, a, b, p);
    }
  }

  /** While an item waits, no later item of its priority has started. */
  lemma {:induction false} LaterIsNotStarted(prioritized: bool, configured: nat, run: Run<Event>, a: nat, b: nat, p: int)
    requires a < b && Entry(p, a, true) in StateOf(prioritized, configured, run).queue
    requires Accepted(b, p) in History(prioritized, configured, run, b)
    ensures Started(b) !in History(prioritized, configured, run, b)
  {
    hide Life, Apply, Enabled, Inv, Choice;
    if run.Then? {
      var s, e := StateOf(prioritized, configured, run.before), run.event;
      InvHolds(prioritized, configured, run.before);
      LifeHolds(prioritized, configured, run.before, b);
      QueueGrowsByAccepting(s, e, p, a);
      if Accepted(b, p) in History(prioritized, configured, run.before, b) {
        if Entry(p, a, true) in s.queue {
          LaterIsNotStarted(prioritized, configured, run.before, a, b, p);
          StartedIsLeast(s, e, a, b, p, History(prioritized, configured, run.before, b));
        } else {
          NewestIsNotOlder(s, b, p, History(prioritized, configured, run.before, b), a);
        }
      } else {
        AcceptedNow(s, e, b, p, History(prioritized, configured, run.before, b));
      }
    }
  }

  lemma QueueGrowsByAccepting(s: State, e: Event, p: int, a: nat)
    ensures var t := if Enabled(s, e) then Apply(s, e) else s;
            Entry(p, a, true) in t.queue && Entry(p, a, true) !in s.queue ==> a == s.sequence
  {
    hide Choice;
  }

  lemma NewestIsNotOlder(s: State, b: nat, p: int, h: seq<Mark>, a: nat)
    requires Inv(s) && Life(s, b, h) && Accepted(b, p) in h && a < b
    ensures a != s.sequence
  {
    hide CountsOk;
    if |h| == 1 {
      var k :| 0 <= k < |s.queue| && s.queue[k] == Entry(h[0].priority, b, true);
    } else if |h| == 2 {
      var x :| 0 <= x < |s.executors| && s.executors[x] == Busy(b);
    }
  }

  /** An entry with one before it is not the choice. */
  lemma NotChosen(s: State, j: nat, k: nat)
    requires QueueOk(s) && j < |s.queue| && k < |s.queue| && Before(s.queue[j], s.queue[k])
    requires s.queue[j].work && s.queue[k].work
    ensures Choice(s) != k
  {
  }

  lemma StartedIsLeast(s: State, e: Event, a: nat, b: nat, p: int, h: seq<Mark>)
    requires Inv(s) && Life(s, b, h) && Accepted(b, p) in h && Started(b) !in h && a < b && Entry(p, a, true) in s.queue
    ensures Started(b) !in h + Seen(s, e, b)
  {
    hide CountsOk, ExecutorsOk, Choice;
    var j :| 0 <= j < |s.queue| && s.queue[j] == Entry(p, a, true);
    var k :| 0 <= k < |s.queue| && s.queue[k] == Entry(p, b, true);
    NotChosen(s, j, k);
  }

  lemma AcceptedNow(s: State, e: Event, b: nat, p: int, h: seq<Mark>)
    requires Inv(s) && Life(s, b, h) && Accepted(b, p) !in h && Accepted(b, p) in h + Seen(s, e, b)
    ensures Started(b) !in h + Seen(s, e, b)
  {
    hide CountsOk;
    assert Accepted(b, p) in Seen(s, e, b);
    LifeAccepted(s, e, b, h);
  }

  /** Sentinels taken by one executor. */
  ghost function Taken(prioritized: bool, configured: nat, run: Run<Event>, x: nat): nat {
    if run.Start? then 0
    else
      var s := StateOf(prioritized, configured, run.before);
      Taken(prioritized, configured, run.before, x) +
      if run.event == Get(x) && Enabled(s, Get(x)) && !s.queue[Choice(s)].work then 1 else 0
  }

  lemma {:induction false} TakenOnExit(prioritized: bool, configured: nat, run: Run<Event>, x: nat)
    ensures var s := StateOf(prioritized, configured, run);
            Taken(prioritized, configured, run, x) == if x < |s.executors| && s.executors[x].Exited? then 1 else 0
  {
    hide Inv, Choice;
    if run.Then? {
      TakenOnExit(prioritized, configured, run.before, x);
      InvHolds(prioritized, configured, run.before);
      ExecutorsStay(StateOf(prioritized, configured, run.before));
    }
  }

  lemma ExecutorsStay(s: State)
    requires Inv(s)
    ensures !s.started ==> s.executors == []
  {
  }

  /** Once `stop` has returned: every accepted item ran exactly once and every executor took exactly one
      sentinel, so the queue is empty. */
  lemma DrainedMeansDone(prioritized: bool, configured: nat, run: Run<Event>, n: nat, x: nat)
    requires StateOf(prioritized, configured, run).drain.Drained?
    ensures var s, h := StateOf(prioritized, configured, run), History(prioritized, configured, run, n);
            && s.queue == []
            && (h == [] || (|h| == 3 && h[0].Accepted? && h[1] == Started(n) && h[2].Ended? && h[2].number == n))
            && (x < |s.executors| ==> Taken(prioritized, configured, run, x) == 1)
  {
    InvHolds(prioritized, configured, run);
    LifeHolds(prioritized, configured, run, n);
    TakenOnExit(prioritized, configured, run, x);
  }

  /** With nothing pending, every accepted item has ended and no executor holds one. */
  lemma IdleMeansDone(prioritized: bool, configured: nat, run: Run<Event>, n: nat)
    requires StateOf(prioritized, configured, run).pending == 0
    ensures var s, h := StateOf(prioritized, configured, run), History(prioritized, configured, run, n);
            && (h == [] || (|h| == 3 && h[0].Accepted? && h[1] == Started(n) && h[2].Ended? && h[2].number == n))
            && forall x :: 0 <= x < |s.executors| ==> !Holds(s.executors[x])
  {
    InvHolds(prioritized, configured, run);
    LifeHolds(prioritized, configured, run, n);
    CountBounds(StateOf(prioritized, configured, run).executors);
    hide Held, Alive;
  }

  /** An item's end stays with its executor until that resumes. */
  lemma {:induction false} EndIsKept(prioritized: bool, configured: nat, run: Run<Event>, n: nat, o: Outcome)
    requires run.Then?
    requires Ended(n, o) in History(prioritized, configured, run, n)
    requires var s := StateOf(prioritized, configured, run.before);
             Ended(n, o) in History(prioritized, configured, run.before, n) ==> Done(n, o) in s.executors
    ensures var s := StateOf(prioritized, configured, run.before);
            || Done(n, o) in StateOf(prioritized, configured, run).executors
            || (Enabled(s, run.event) && run.event.Resume? && s.executors[run.event.x] == Done(n, o))
  {
    var s, e := StateOf(prioritized, configured, run.before), run.event;
    InvHolds(prioritized, configured, run.before);
    ExecutorsStay(s);
    hide Inv;
    if Ended(n, o) in History(prioritized, configured, run.before, n) {
      DoneStays(s, e, n, o);
    } else {
      assert Ended(n, o) in Seen(s, e, n);
      assert Apply(s, e).executors[e.x] == Done(n, o);
    }
  }

  lemma DoneStays(s: State, e: Event, n: nat, o: Outcome)
    requires Done(n, o) in s.executors && (!s.started ==> s.executors == [])
    ensures Enabled(s, e) ==>
              Done(n, o) in Apply(s, e).executors || (e.Resume? && s.executors[e.x] == Done(n, o))
  {
    hide Choice;
    var y :| 0 <= y < |s.executors| && s.executors[y] == Done(n, o);
    if Enabled(s, e) {
      assert (e.Resume? && e.x == y) || Apply(s, e).executors[y] == Done(n, o);
    }
  }

  /** Whatever an executor has yet to report has ended. */
  lemma {:induction false} DoneHasEnded(prioritized: bool, configured: nat, run: Run<Event>, x: nat)
    requires var s := StateOf(prioritized, configured, run); x < |s.executors| && s.executors[x].Done?
    ensures var pc := StateOf(prioritized, configured, run).executors[x];
            Ended(pc.number, pc.outcome) in History(prioritized, configured, run, pc.number)
  {
    InvHolds(prioritized, configured, run.before);
    var s, e := StateOf(prioritized, configured, run.before), run.event;
    ExecutorsStay(s);
    hide Inv, Choice;
    if Enabled(s, e) {
      DoneComes(s, e, x);
    }
    if x < |s.executors| && s.executors[x] == StateOf(prioritized, configured, run).executors[x] {
      DoneHasEnded(prioritized, configured, run.before, x);
    }
    hide Apply;
  }

  lemma DoneComes(s: State, e: Event, x: nat)
    requires Enabled(s, e) && (!s.started ==> s.executors == []) && x < |Apply(s, e).executors| && Apply(s, e).executors[x].Done?
    ensures var pc := Apply(s, e).executors[x];
            || (x < |s.executors| && s.executors[x] == pc)
            || Seen(s, e, pc.number) == [Ended(pc.number, pc.outcome)]
  {
    hide Choice;
  }

  /** What still has to happen in a pool that has pending items. */
  lemma PendingMakesProgress(s: State) returns (e: Event)
    requires Inv(s) && s.pending != 0
    ensures Enabled(s, e)
    ensures e.BodyDone? || e.Resume? || (e.Get? && s.queue[Choice(s)].work)
  {
    hide Choice;
    CountBounds(s.executors);
    if Held(s.executors) == 0 {
      e := Get(0);
    } else {
      var x :| 0 <= x < |s.executors| && Holds(s.executors[x]);
      e := if s.executors[x].Busy? then BodyDone(x, Fine) else Resume(x);
    }
  }

  // ---------------------------------------------------------------------------
  // What the events decide
  // ---------------------------------------------------------------------------

  ghost predicate HasStopped(run: Run<Event>) {
    run.Then? && (HasStopped(run.before) || run.event.Stop?)
  }

  /** The pool was started, before any stop. */
  ghost predicate HasStarted(run: Run<Event>) {
    run.Then? && (HasStarted(run.before) || (run.event.StartUp? && !HasStopped(run.before)))
  }

  /** The priorities that live callers gave to a running pool, in the order of their calls. */
  ghost function Added(run: Run<Event>): seq<int> {
    if run.Start? then []
    else
      Added(run.before) +
      if run.event.Add? && !run.event.cancelled && HasStarted(run.before) && !HasStopped(run.before) then [run.event.priority]
      else []
  }

  lemma {:induction false} RunningIff(prioritized: bool, configured: nat, run: Run<Event>)
    ensures var s := StateOf(prioritized, configured, run);
            && (s.started <==> HasStarted(run)) && (s.stopped <==> HasStopped(run))
            && s.count == (if configured == 0 then 1 else configured)
  {
    if run.Then? {
      RunningIff(prioritized, configured, run.before);
      InvHolds(prioritized, configured, run.before);
      hide Inv, QueueOk, ExecutorsOk, Choice, Accepts;
      if Enabled(StateOf(prioritized, configured, run.before), run.event) {
        RunningStep(StateOf(prioritized, configured, run.before), run.event);
      }
    }
  }

  lemma RunningStep(s: State, e: Event)
    requires Inv(s) && Enabled(s, e)
    ensures var t := Apply(s, e);
            && (t.started <==> s.started || (e.StartUp? && !s.stopped))
            && (t.stopped <==> s.stopped || e.Stop?) && t.count == s.count
  {
    hide Choice, QueueOk, ExecutorsOk, Held, Alive;
  }

  /** A pool takes an item exactly from a live caller, once it was started and as long as it was not stopped; it
      then has its executors, at least one. */
  lemma AcceptedIff(prioritized: bool, configured: nat, run: Run<Event>, priority: int, cancelled: bool)
    ensures var s := StateOf(prioritized, configured, run);
            Accepts(s, Add(priority, cancelled)) <==> !cancelled && HasStarted(run) && !HasStopped(run)
    ensures var s := StateOf(prioritized, configured, run);
            HasStarted(run) ==> |s.executors| == if configured == 0 then 1 else configured
  {
    RunningIff(prioritized, configured, run);
    InvHolds(prioritized, configured, run);
  }

  /** What an item of this number is queued with: the priority its caller gave, in a priority pool. */
  ghost function PriorityIn(prioritized: bool, added: seq<int>, n: nat): int
    requires n < |added|
  {
    if prioritized then added[n] else 1
  }

  ghost predicate QueuedAs(s: State, added: seq<int>) {
    && (if SentinelsIn(s) then |added| <= s.sequence else |added| == s.sequence)
    && forall k :: 0 <= k < |s.queue| && s.queue[k].work ==>
                     s.queue[k].number < |added| && s.queue[k].priority == PriorityIn(s.prioritized, added, s.queue[k].number)
  }

  lemma AddQueues(s: State, added: seq<int>, priority: int)
    requires Inv(s) && QueuedAs(s, added) && Accepts(s, Add(priority, false))
    ensures QueuedAs(Apply(s, Add(priority, false)), added + [priority])
  {
    hide QueueOk, ExecutorsOk, Held, Alive;
  }

  lemma GetKeepsQueued(s: State, added: seq<int>, x: nat)
    requires QueuedAs(s, added) && Enabled(s, Get(x))
    ensures QueuedAs(Apply(s, Get(x)), added)
  {
    var t, k := Apply(s, Get(x)), Choice(s);
    hide Least, Choice;
    assert forall j :: 0 <= j < |t.queue| ==> t.queue[j] == s.queue[if j < k then j else j + 1];
  }

  lemma OtherKeepsQueued(s: State, added: seq<int>, e: Event)
    requires QueuedAs(s, added) && Enabled(s, e) && !e.Get? && !Accepts(s, e)
    ensures QueuedAs(Apply(s, e), added)
  {
    hide Choice;
  }

  /** Every item waits under its own number with the priority that its caller gave. */
  lemma {:induction false} ItemsWaitAsAdded(prioritized: bool, configured: nat, run: Run<Event>)
    ensures QueuedAs(StateOf(prioritized, configured, run), Added(run))
  {
    if run.Then? {
      ItemsWaitAsAdded(prioritized, configured, run.before);
      InvHolds(prioritized, configured, run.before);
      RunningIff(prioritized, configured, run.before);
      var s, e, added := StateOf(prioritized, configured, run.before), run.event, Added(run.before);
      assert added + [] == added;
      assert Accepts(s, e) <==> e.Add? && !e.cancelled && HasStarted(run.before) && !HasStopped(run.before);
      hide Apply, Inv, QueuedAs, HasStarted, HasStopped, Choice, Accepts;
      if Enabled(s, e) {
        if e.Get? {
          GetKeepsQueued(s, added, e.x);
        } else if Accepts(s, e) {
          AddQueues(s, added, e.priority);
        } else {
          OtherKeepsQueued(s, added, e);
        }
      }
    }
  }

  lemma {:induction false} AddedIsAccepted(prioritized: bool, configured: nat, run: Run<Event>, n: nat)
    requires n < |Added(run)|
    ensures History(prioritized, configured, run, n) != []
  {
    RunningIff(prioritized, configured, run.before);
    ItemsWaitAsAdded(prioritized, configured, run.before);
    InvHolds(prioritized, configured, run.before);
    if n < |Added(run.before)| {
      AddedIsAccepted(prioritized, configured, run.before, n);
    } else {
      var s, e := StateOf(prioritized, configured, run.before), run.event;
      assert Accepts(s, e) && !SentinelsIn(s) && n == s.sequence;
      assert Seen(s, e, n) == [Accepted(n, PriorityOf(s, e))];
    }
  }

  /** The item waits: it was added and no executor has taken it. */
  ghost predicate WaitsIn(prioritized: bool, configured: nat, run: Run<Event>, n: nat) {
    n < |Added(run)| && Started(n) !in History(prioritized, configured, run, n)
  }

  lemma WaitingIsQueued(prioritized: bool, configured: nat, run: Run<Event>, n: nat)
    requires WaitsIn(prioritized, configured, run, n)
    ensures Entry(PriorityIn(prioritized, Added(run), n), n, true) in StateOf(prioritized, configured, run).queue
  {
    var s, h := StateOf(prioritized, configured, run), History(prioritized, configured, run, n);
    AddedIsAccepted(prioritized, configured, run, n);
    LifeHolds(prioritized, configured, run, n);
    ItemsWaitAsAdded(prioritized, configured, run);
    InvHolds(prioritized, configured, run);
    hide StateOf, Added, History, Inv, Running;
    assert |h| == 1;
    var k :| 0 <= k < |s.queue| && s.queue[k] == Entry(h[0].priority, n, true);
  }

  /** When an executor takes an item, no waiting item of a priority pool was added with a smaller priority, or
      earlier with the same one; in an ordinary pool none was added earlier. */
  lemma DispatchFollowsAdds(prioritized: bool, configured: nat, run: Run<Event>, x: nat, n: nat, m: nat)
    requires var s := StateOf(prioritized, configured, run); Enabled(s, Get(x)) && Takes(s, n)
    requires m != n && WaitsIn(prioritized, configured, run, m)
    ensures n < |Added(run)|
    ensures if prioritized then Added(run)[n] < Added(run)[m] || (Added(run)[n] == Added(run)[m] && n < m) else n < m
  {
    var s := StateOf(prioritized, configured, run);
    WaitingIsQueued(prioritized, configured, run, m);
    ItemsWaitAsAdded(prioritized, configured, run);
    InvHolds(prioritized, configured, run);
    var k :| 0 <= k < |s.queue| && s.queue[k] == Entry(PriorityIn(prioritized, Added(run), m), m, true);
    DispatchIsLeast(prioritized, configured, run, k);
    hide StateOf, Added, Inv, Choice, Least, WaitsIn;
  }

  /** A stopped pool that has not drained can always go on. */
  lemma DrainMakesProgress(prioritized: bool, configured: nat, run: Run<Event>) returns (e: Event)
    requires HasStopped(run) && !StateOf(prioritized, configured, run).drain.Drained?
    ensures Enabled(StateOf(prioritized, configured, run), e)
    ensures e.BodyDone? || e.Resume? || e.Get? || e.PutSentinels? || e.GatherDone?
    ensures var t := Apply(StateOf(prioritized, configured, run), e);
            (e.PutSentinels? ==> t.drain.Gathering?) && (e.GatherDone? ==> t.drain.Drained?)
  {
    var s := StateOf(prioritized, configured, run);
    RunningIff(prioritized, configured, run);
    InvHolds(prioritized, configured, run);
    CountBounds(s.executors);
    hide StateOf, HasStarted, HasStopped, Choice;
    if s.pending != 0 {
      e := PendingMakesProgress(s);
    } else if s.drain.AwaitingIdle? {
      e := PutSentinels;
    } else if x :| 0 <= x < |s.executors| && !s.executors[x].Exited? {
      e := Get(x);
    } else {
      e := GatherDone;
    }
  }

  // ---------------------------------------------------------------------------
  // The pool object
  // ---------------------------------------------------------------------------

  class Pool {
    const prioritized: bool
    const count: nat
    var queue: seq<Entry>
    var sequence: nat
    var pending: int
    var idle: bool
    var started: bool
    var stopped: bool
    var executors: seq<Pc>
    var drain: Drain

    constructor (prioritized: bool, configured: nat)
      ensures View() == Initial(prioritized, configured)
    {
      this.prioritized := prioritized;
      count := if configured == 0 then 1 else configured;
      queue, sequence, pending, idle := [], 0, 0, true;
      started, stopped, executors, drain := false, false, [], Open;
    }

    function View(): State
      reads this
    {
      State(prioritized, count, queue, sequence, pending, idle, started, stopped, executors, drain)
    }

    /** Creates the executors, once; a stopped pool cannot start. */
    method StartPool() returns (ok: bool)
      modifies this
      ensures View() == Apply(old(View()), StartUp) && (ok <==> old(started || !stopped))
    {
      if started {
        return true;
      }
      if stopped {
        return false;
      }
      started := true;
      var created: seq<Pc> := [];
      for i := 0 to count
        invariant created == seq(i, _ => Waiting)
      {
        created := created + [Waiting];
      }
      executors := created;
      ok := true;
    }

    method NextSequence() returns (number: nat)
      modifies this`sequence
      ensures number == old(sequence) && sequence == old(sequence) + 1
    {
      number := sequence;
      sequence := sequence + 1;
    }

    /** Accept an item, or refuse it for a cancelled caller or a pool that does not run. */
    method Enqueue(priority: int, cancelled: bool) returns (ok: bool)
      modifies this
      ensures View() == Apply(old(View()), Add(priority, cancelled)) && (ok <==> Accepts(old(View()), Add(priority, cancelled)))
    {
      if cancelled || !started || stopped {
        return false;
      }
      pending := pending + 1;
      idle := false;
      var number := NextSequence();
      queue := queue + [Entry(if prioritized then priority else 1, number, true)];
      ok := true;
    }

    method RequestStop()
      modifies this
      ensures View() == Apply(old(View()), Stop)
    {
      if drain == Open {
        stopped := true;
        drain := AwaitingIdle;
      }
    }

    /** The drain task after the idle wait: one sentinel for each executor. */
    method EnqueueSentinels()
      requires Enabled(View(), PutSentinels)
      modifies this
      ensures View() == Apply(old(View()), PutSentinels)
    {
      ghost var first := sequence;
      for i := 0 to |executors|
        invariant sequence == first + i && queue == old(queue) + Sentinels(first, i)
        invariant View() == old(View()).(queue := queue, sequence := sequence)
      {
        var number := NextSequence();
        assert Sentinels(first, i + 1) == Sentinels(first, i) + [Entry(2, number, false)];
        queue := queue + [Entry(2, number, false)];
      }
      drain := Gathering;
    }

    /** An executor takes the next entry; a sentinel ends it. */
    method TakeNext(x: nat)
      requires Enabled(View(), Get(x))
      modifies this
      ensures View() == Apply(old(View()), Get(x))
    {
      var k := Choice(View());
      var entry := queue[k];
      queue := queue[..k] + queue[k + 1..];
      if entry.work {
        executors := executors[x := Busy(entry.number)];
      } else {
        executors := executors[x := Exited];
      }
    }

    method TaskDone()
      modifies this
      ensures View() == old(View()).(pending := old(pending) - 1, idle := old(idle) || old(pending) - 1 == 0)
    {
      pending := pending - 1;
      if pending == 0 {
        idle := true;
      }
    }

    /** The executor resumes after its item's task: report an error, then account for the item. */
    method FinishItem(x: nat) returns (reported: seq<string>)
      requires Enabled(View(), Resume(x))
      modifies this
      ensures View() == Apply(old(View()), Resume(x))
      ensures reported == (if old(executors[x]).outcome.Failed? then [old(executors[x]).outcome.error] else [])
    {
      reported := if executors[x].outcome.Failed? then [executors[x].outcome.error] else [];
      TaskDone();
      executors := executors[x := Waiting];
    }
  }
}
