/** `@every` schedules.  Times are whole microseconds.  The interval trigger coalesces a backlog to its
    first and its latest due slot, and the endpoint turns what the scheduler submits into admissions
    without losing or repeating a slot. */
module CronInterval {
  import opened Runs

  datatype Option<T> = None | Some(value: T)

  /** An interval trigger: its first slot and the distance between slots. */
  datatype Trigger = Trigger(start: int, step: int)

  predicate Valid(tr: Trigger) {
    tr.step > 0
  }

  function Slot(tr: Trigger, k: int): int {
    tr.start + k * tr.step
  }

  // ---------------------------------------------------------------------------
  // Quotients
  // ---------------------------------------------------------------------------

  lemma {:induction false} MulMonotone(a: int, b: int, step: int)
    requires a <= b && step > 0
    ensures a * step <= b * step
    ensures a < b ==> a * step + step <= b * step
    decreases b - a
  {
    if a < b {
      MulMonotone(a, b - 1, step);
      OneMoreStep(b - 1, step);
    }
  }

  lemma OneMoreStep(a: int, step: int)
    ensures (a + 1) * step == a * step + step
  {
  }

  lemma SlotsAreOrdered(tr: Trigger, j: int, k: int)
    requires Valid(tr)
    ensures j <= k <==> Slot(tr, j) <= Slot(tr, k)
    ensures j < k <==> Slot(tr, j) < Slot(tr, k)
    ensures Slot(tr, k + 1) == Slot(tr, k) + tr.step
  {
    if j <= k {
      MulMonotone(j, k, tr.step);
    } else {
      MulMonotone(k, j, tr.step);
    }
    assert (k + 1) * tr.step == k * tr.step + tr.step;
  }

  lemma QuotientIs(a: int, step: int, q: int)
    requires step > 0 && q * step <= a < q * step + step
    ensures a / step == q
  {
    var p := a / step;
    assert p * step <= a < p * step + step;
    if p < q {
      MulMonotone(p, q, step);
    } else if q < p {
      MulMonotone(q, p, step);
    }
  }

  // ---------------------------------------------------------------------------
  // The trigger
  // ---------------------------------------------------------------------------

  /** The library's rule: the previous time plus the interval; at first, the least slot not before `now`. */
  function Base(tr: Trigger, previous: Option<int>, now: int): int
    requires Valid(tr)
  {
    match previous
    case Some(p) => p + tr.step
    case None => if tr.start > now then tr.start else tr.start + tr.step * ((now - tr.start + tr.step - 1) / tr.step)
  }

  /** The coalescing rule: a candidate that is already due moves to the latest due slot. */
  function NextFire(tr: Trigger, previous: Option<int>, now: int): int
    requires Valid(tr)
  {
    var candidate := Base(tr, previous, now);
    if previous.Some? && candidate <= now then candidate + ((now - candidate) / tr.step) * tr.step else candidate
  }

  function Next(tr: Trigger, coalescing: bool, previous: int, now: int): (t: int)
    requires Valid(tr)
    ensures t > previous
  {
    if coalescing then
      var candidate := previous + tr.step;
      assert candidate <= now ==> ((now - candidate) / tr.step) * tr.step >= 0;
      NextFire(tr, Some(previous), now)
    else Base(tr, Some(previous), now)
  }

  /** The scheduler's list of due times, from the job's next run time on. */
  function Due(tr: Trigger, coalescing: bool, next: int, now: int): seq<int>
    requires Valid(tr)
    decreases now - next
  {
    if next > now then [] else [next] + Due(tr, coalescing, Next(tr, coalescing, next, now), now)
  }

  /** The scheduler's loop over the trigger. */
  method RunTimes(tr: Trigger, coalescing: bool, next: int, now: int) returns (times: seq<int>)
    requires Valid(tr)
    ensures times == Due(tr, coalescing, next, now)
  {
    times := [];
    var t := next;
    while t <= now
      invariant times + Due(tr, coalescing, t, now) == Due(tr, coalescing, next, now)
      decreases now - t
    {
      times := times + [t];
      t := Next(tr, coalescing, t, now);
    }
  }

  /** The index of the latest slot not after `now`. */
  function Latest(tr: Trigger, now: int): int
    requires Valid(tr)
  {
    (now - tr.start) / tr.step
  }

  lemma LatestBounds(tr: Trigger, now: int)
    requires Valid(tr)
    ensures Slot(tr, Latest(tr, now)) <= now < Slot(tr, Latest(tr, now) + 1)
    ensures forall k :: Slot(tr, k) <= now <==> k <= Latest(tr, now)
  {
    var q := Latest(tr, now);
    SlotsAreOrdered(tr, q, q);
    forall k ensures Slot(tr, k) <= now <==> k <= q {
      SlotsAreOrdered(tr, k, q);
      SlotsAreOrdered(tr, q + 1, k);
    }
  }

  /** Slot by slot, the due times are exactly the slots from the due one to the latest. */
  lemma {:induction false} FullEnumeration(tr: Trigger, k: int, now: int)
    requires Valid(tr)
    ensures Due(tr, false, Slot(tr, k), now) ==
            if k <= Latest(tr, now) then seq(Latest(tr, now) - k + 1, i => Slot(tr, k + i)) else []
    decreases Latest(tr, now) - k
  {
    LatestBounds(tr, now);
    SlotsAreOrdered(tr, k, k);
    if k <= Latest(tr, now) {
      FullEnumeration(tr, k + 1, now);
    }
  }

  /** The coalescing rule hits the latest due slot, or the slot after the previous one. */
  lemma CoalescedNext(tr: Trigger, k: int, now: int)
    requires Valid(tr)
    ensures Next(tr, true, Slot(tr, k), now) == Slot(tr, if k < Latest(tr, now) then Latest(tr, now) else k + 1)
  {
    LatestBounds(tr, now);
    SlotsAreOrdered(tr, k, k);
    var q := Latest(tr, now);
    if k < q {
      var c := Slot(tr, k + 1);
      SlotsAreOrdered(tr, q, q);
      assert Slot(tr, q) - c == (q - k - 1) * tr.step;
      QuotientIs(now - c, tr.step, q - k - 1);
    }
  }

  /** Repeating the coalescing trigger gives the first and the latest due slot of the full enumeration,
      and nothing else; what follows is the least slot after `now`. */
  lemma {:induction false} CoalescingRefinesFullEnumeration(tr: Trigger, k: nat, now: int)
    requires Valid(tr)
    ensures var full, due := Due(tr, false, Slot(tr, k), now), Due(tr, true, Slot(tr, k), now);
            && due == (if |full| <= 1 then full else [full[0], full[|full| - 1]])
            && (due != [] ==> IsLeastSlotAfter(tr, Next(tr, true, due[|due| - 1], now), now))
            && (due == [] ==> now < Slot(tr, k))
  {
    var q := Latest(tr, now);
    FullEnumeration(tr, k, now);
    LatestBounds(tr, now);
    CoalescedNext(tr, k, now);
    CoalescedNext(tr, q, now);
    SlotsAreOrdered(tr, q, q);
    if k <= q {
      LeastAfter(tr, now);
      assert Due(tr, true, Slot(tr, q), now) == [Slot(tr, q)];
    }
  }

  ghost predicate IsLeastSlotAfter(tr: Trigger, t: int, now: int) {
    now < t && (exists k: nat :: t == Slot(tr, k)) && forall k: nat :: Slot(tr, k) > now ==> t <= Slot(tr, k)
  }

  lemma LeastAfter(tr: Trigger, now: int)
    requires Valid(tr) && Latest(tr, now) >= -1
    ensures IsLeastSlotAfter(tr, Slot(tr, Latest(tr, now) + 1), now)
  {
    var q := Latest(tr, now);
    LatestBounds(tr, now);
    forall k: nat | Slot(tr, k) > now ensures Slot(tr, q + 1) <= Slot(tr, k) {
      SlotsAreOrdered(tr, q + 1, k);
    }
    var n: nat := q + 1;
    assert Slot(tr, q + 1) == Slot(tr, n);
  }

  /** The first run time is the least slot that is not before `now`. */
  lemma FirstFire(tr: Trigger, now: int)
    requires Valid(tr)
    ensures IsLeastSlotAfter(tr, NextFire(tr, None, now), now - 1)
  {
    if tr.start > now {
      assert Slot(tr, 0) == tr.start;
      forall k: nat ensures Slot(tr, k) >= tr.start {
        SlotsAreOrdered(tr, 0, k);
      }
    } else {
      var q := Latest(tr, now - 1);
      LatestBounds(tr, now - 1);
      SlotsAreOrdered(tr, q, q);
      SlotsAreOrdered(tr, 0, q + 1);
      QuotientIs(now - tr.start + tr.step - 1, tr.step, q + 1);
      assert NextFire(tr, None, now) == Slot(tr, q + 1);
      LeastAfter(tr, now - 1);
    }
  }

  // ---------------------------------------------------------------------------
  // The endpoint
  // ---------------------------------------------------------------------------

  datatype MissedRunPolicy = Skip | FireOnce

  datatype State = State(
    tr: Trigger,
    policy: MissedRunPolicy,
    intervalNext: int,
    scheduled: seq<Option<int>>,
    accepting: bool)

  function Initial(tr: Trigger, policy: MissedRunPolicy): State {
    State(tr, policy, tr.start, [], true)
  }

  /** The scheduler submitted a run, or rejected it because an earlier one still runs; or it calls the job. */
  datatype Event =
    | Submission(own: bool, times: seq<int>, submitted: bool)
    | Fire(expired: bool)
    | StopAdmission
    | Drained

  /** The slots from the next expected one to the latest reported one. */
  function Count(s: State, latest: int): int
    requires Valid(s.tr)
  {
    (latest - s.intervalNext) / s.tr.step + 1
  }

  predicate Admits(s: State, latest: int)
    requires Valid(s.tr)
  {
    var count := Count(s, latest);
    count > 0 && !(count > 1 && s.policy.Skip?)
  }

  function Apply(s: State, e: Event): State
    requires Valid(s.tr)
  {
    match e
    case Submission(own, times, submitted) =>
      if !own || times == [] then s
      else
        var latest := times[|times| - 1];
        var t := if Count(s, latest) > 0 then s.(intervalNext := latest + s.tr.step) else s;
        if submitted then t.(scheduled := s.scheduled + [if Admits(s, latest) then Some(latest) else None]) else t
    case Fire(expired) => if !s.accepting || expired || s.scheduled == [] then s else s.(scheduled := s.scheduled[1..])
    case StopAdmission => s.(accepting := false)
    case Drained => if s.accepting then s else s.(scheduled := [])
  }

  /** The time the endpoint function is called with, if the event calls it. */
  function Fires(s: State, e: Event): seq<int> {
    if e.Fire? && s.accepting && !e.expired && s.scheduled != [] && s.scheduled[0].Some? then [s.scheduled[0].value] else []
  }

  /** The latest reported slot of an event of this endpoint. */
  predicate Reports(e: Event) {
    e.Submission? && e.own && e.times != []
  }

  function LatestOf(e: Event): int
    requires Reports(e)
  {
    e.times[|e.times| - 1]
  }

  ghost predicate OnGrid(tr: Trigger, t: int) {
    exists k: nat :: t == Slot(tr, k)
  }

  /** Every reported latest time is a slot of the trigger. */
  ghost predicate GridRun(tr: Trigger, run: Run<Event>) {
    run.Then? ==> GridRun(tr, run.before) && (Reports(run.event) ==> OnGrid(tr, LatestOf(run.event)))
  }

  ghost function StateOf(tr: Trigger, policy: MissedRunPolicy, run: Run<Event>): (s: State)
    requires Valid(tr)
    ensures s.tr == tr && s.policy == policy
  {
    if run.Start? then Initial(tr, policy) else Apply(StateOf(tr, policy, run.before), run.event)
  }

  // ---------------------------------------------------------------------------
  // The reference: which slots an event reports for the first time
  // ---------------------------------------------------------------------------

  /** The number of slots reported so far: one more than the greatest index seen. */
  ghost function Reported(tr: Trigger, run: Run<Event>): nat
    requires Valid(tr) && GridRun(tr, run)
  {
    if run.Start? then 0
    else
      var before := Reported(tr, run.before);
      if !Reports(run.event) then before
      else
        var k: nat :| LatestOf(run.event) == Slot(tr, k);
        if k >= before then k + 1 else before
  }

  /** How many slots the last event of a run reports for the first time. */
  ghost function NewSlots(tr: Trigger, run: Run<Event>): nat
    requires Valid(tr) && GridRun(tr, run)
    ensures run.Then? ==> NewSlots(tr, run) == Reported(tr, run) - Reported(tr, run.before)
  {
    if run.Start? then 0 else Reported(tr, run) - Reported(tr, run.before)
  }

  /** The endpoint expects the first slot not yet reported; the count of an event is the number of slots
      it reports for the first time, or not positive when there is none. */
  lemma {:induction false} ExpectsFirstUnreported(tr: Trigger, policy: MissedRunPolicy, run: Run<Event>)
    requires Valid(tr) && GridRun(tr, run)
    ensures StateOf(tr, policy, run).intervalNext == Slot(tr, Reported(tr, run))
    ensures run.Then? && Reports(run.event) ==>
              var count := Count(StateOf(tr, policy, run.before), LatestOf(run.event));
              NewSlots(tr, run) == if count > 0 then count else 0
  {
    if run.Start? {
      assert Slot(tr, 0) == tr.start;
    } else {
      ExpectsFirstUnreported(tr, policy, run.before);
      if Reports(run.event) {
        var before := Reported(tr, run.before);
        var k: nat :| LatestOf(run.event) == Slot(tr, k) && Reported(tr, run) == if k >= before then k + 1 else before;
        SlotDifference(tr, before, k);
        SlotsAreOrdered(tr, k, k);
      }
    }
  }

  lemma SlotDifference(tr: Trigger, j: int, k: int)
    requires Valid(tr)
    ensures (Slot(tr, k) - Slot(tr, j)) / tr.step == k - j
  {
    assert Slot(tr, k) - Slot(tr, j) == (k - j) * tr.step;
    QuotientIs(Slot(tr, k) - Slot(tr, j), tr.step, k - j);
  }

  /** The positive counts of a run. */
  ghost function CountSum(tr: Trigger, policy: MissedRunPolicy, run: Run<Event>): int
    requires Valid(tr)
  {
    if run.Start? then 0
    else
      CountSum(tr, policy, run.before) +
      if !Reports(run.event) then 0
      else
        var count := Count(StateOf(tr, policy, run.before), LatestOf(run.event));
        if count > 0 then count else 0
  }

  /** The time, if any, that the event admits. */
  function AdmitsNow(s: State, e: Event): seq<int>
    requires Valid(s.tr)
  {
    if Reports(e) && e.submitted && Admits(s, LatestOf(e)) then [LatestOf(e)] else []
  }

  /** The times admitted over a run, in order. */
  ghost function Admitted(tr: Trigger, policy: MissedRunPolicy, run: Run<Event>): seq<int>
    requires Valid(tr)
  {
    if run.Start? then []
    else
      Admitted(tr, policy, run.before) + AdmitsNow(StateOf(tr, policy, run.before), run.event)
  }

  /** The times the endpoint function was called with over a run, in order. */
  ghost function Fired(tr: Trigger, policy: MissedRunPolicy, run: Run<Event>): seq<int>
    requires Valid(tr)
  {
    if run.Start? then []
    else Fired(tr, policy, run.before) + Fires(StateOf(tr, policy, run.before), run.event)
  }

  predicate Increasing(ts: seq<int>) {
    forall i, j :: 0 <= i < j < |ts| ==> ts[i] < ts[j]
  }

  /** Every slot ever reported lies before the next expected one. */
  lemma {:induction false} ExpectedAfterReported(tr: Trigger, policy: MissedRunPolicy, run: Run<Event>, earlier: Run<Event>)
    requires Valid(tr) && GridRun(tr, run) && Extends(run, earlier) && earlier.Then? && Reports(earlier.event)
    ensures LatestOf(earlier.event) < StateOf(tr, policy, run).intervalNext
  {
    ExpectsFirstUnreported(tr, policy, run);
    if run == earlier {
      var before := Reported(tr, run.before);
      var k: nat :| LatestOf(run.event) == Slot(tr, k) && Reported(tr, run) == if k >= before then k + 1 else before;
      SlotsAreOrdered(tr, k, Reported(tr, run));
    } else {
      ExpectedAfterReported(tr, policy, run.before, earlier);
      ExpectsFirstUnreported(tr, policy, run.before);
      SlotsAreOrdered(tr, Reported(tr, run.before), Reported(tr, run));
    }
  }

  /** Over any run: the next expected slot is on the grid and after every reported one, and the positive
      counts sum exactly to the slots passed. */
  lemma {:induction false} SlotsAreConserved(tr: Trigger, policy: MissedRunPolicy, run: Run<Event>)
    requires Valid(tr) && GridRun(tr, run)
    ensures var s := StateOf(tr, policy, run);
            && s.intervalNext == Slot(tr, CountSum(tr, policy, run))
            && CountSum(tr, policy, run) == Reported(tr, run)
            && forall earlier :: Extends(run, earlier) && earlier.Then? && Reports(earlier.event)
                                 ==> LatestOf(earlier.event) < s.intervalNext
  {
    ExpectsFirstUnreported(tr, policy, run);
    forall earlier | Extends(run, earlier) && earlier.Then? && Reports(earlier.event)
      ensures LatestOf(earlier.event) < StateOf(tr, policy, run).intervalNext
    {
      ExpectedAfterReported(tr, policy, run, earlier);
    }
    if run.Then? {
      SlotsAreConserved(tr, policy, run.before);
    }
  }

  /** An accepted event is admitted exactly when it reports one new slot under Skip, or any under FireOnce. */
  lemma AdmittedIffNewSlots(tr: Trigger, policy: MissedRunPolicy, run: Run<Event>)
    requires Valid(tr) && GridRun(tr, run) && run.Then? && Reports(run.event)
    ensures Admitted(tr, policy, run) ==
            Admitted(tr, policy, run.before) +
            if run.event.submitted && (if policy.Skip? then NewSlots(tr, run) == 1 else NewSlots(tr, run) >= 1)
            then [LatestOf(run.event)] else []
  {
    ExpectsFirstUnreported(tr, policy, run);
  }

  /** Admitted times strictly increase and lie before the next expected slot. */
  lemma {:induction false} AdmittedIncrease(tr: Trigger, policy: MissedRunPolicy, run: Run<Event>)
    requires Valid(tr)
    ensures Increasing(Admitted(tr, policy, run))
    ensures forall i :: 0 <= i < |Admitted(tr, policy, run)| ==> Admitted(tr, policy, run)[i] < StateOf(tr, policy, run).intervalNext
  {
    if run.Then? {
      AdmittedIncrease(tr, policy, run.before);
      if Reports(run.event) {
        CountIsPositive(StateOf(tr, policy, run.before), LatestOf(run.event));
      }
    }
  }

  lemma CountIsPositive(s: State, latest: int)
    requires Valid(s.tr)
    ensures Count(s, latest) > 0 <==> latest >= s.intervalNext
  {
    var d := latest - s.intervalNext;
    assert d < 0 ==> d / s.tr.step < 0;
  }

  function Somes(q: seq<Option<int>>): seq<int> {
    if q == [] then [] else (if q[0].Some? then [q[0].value] else []) + Somes(q[1..])
  }

  lemma {:induction false} SomesConcat(p: seq<Option<int>>, q: seq<Option<int>>)
    ensures Somes(p + q) == Somes(p) + Somes(q)
  {
    if p == [] {
      assert p + q == q;
    } else {
      var head := if p[0].Some? then [p[0].value] else [];
      SomesConcat(p[1..], q);
      assert (p + q)[0] == p[0] && (p + q)[1..] == p[1..] + q;
      assert head + (Somes(p[1..]) + Somes(q)) == head + Somes(p[1..]) + Somes(q);
    }
  }

  /** What waits after a step, behind what fired in it. */
  lemma {:induction false} AdmissionStep(s: State, e: Event)
    requires Valid(s.tr) && Apply(s, e).accepting
    ensures s.accepting && Fires(s, e) + Somes(Apply(s, e).scheduled) == Somes(s.scheduled) + AdmitsNow(s, e)
  {
    hide Admits, Count;
    if Reports(e) && e.submitted {
      SomesConcat(s.scheduled, [if Admits(s, LatestOf(e)) then Some(LatestOf(e)) else None]);
    }
  }

  lemma MovesKeep(admitted: seq<int>, fired: seq<int>, waits: seq<int>, admits: seq<int>, fires: seq<int>, waits': seq<int>)
    requires fired + waits == admitted && fires + waits' == waits + admits
    ensures fired + fires + waits' == admitted + admits
  {
    assert fired + fires + waits' == fired + (fires + waits');
    assert fired + (waits + admits) == fired + waits + admits;
  }

  /** While the endpoint accepts, every admission either fired, in order, or still waits. */
  lemma {:induction false} AdmissionsAreConserved(tr: Trigger, policy: MissedRunPolicy, run: Run<Event>)
    requires Valid(tr) && StateOf(tr, policy, run).accepting
    ensures Fired(tr, policy, run) + Somes(StateOf(tr, policy, run).scheduled) == Admitted(tr, policy, run)
  {
    if run.Then? {
      hide Apply, Fires, Admits, Count, Somes;
      var s, e := StateOf(tr, policy, run.before), run.event;
      AdmissionStep(s, e);
      AdmissionsAreConserved(tr, policy, run.before);
      MovesKeep(Admitted(tr, policy, run.before), Fired(tr, policy, run.before), Somes(s.scheduled),
                AdmitsNow(s, e), Fires(s, e), Somes(Apply(s, e).scheduled));
    }
  }

  /** The endpoint's admission was stopped. */
  ghost predicate HasStopped(run: Run<Event>) {
    run.Then? && (HasStopped(run.before) || run.event.StopAdmission?)
  }

  lemma {:induction false} AcceptsIff(tr: Trigger, policy: MissedRunPolicy, run: Run<Event>)
    requires Valid(tr)
    ensures StateOf(tr, policy, run).accepting <==> !HasStopped(run)
  {
    if run.Then? {
      AcceptsIff(tr, policy, run.before);
      hide Count, Admits;
    }
  }

  /** A job call of an endpoint that was not stopped, within its deadline and with something waiting, takes the
      oldest outcome and fires it if there is one to fire; any other job call does nothing. */
  lemma JobCallTakesOne(tr: Trigger, policy: MissedRunPolicy, run: Run<Event>, expired: bool)
    requires Valid(tr)
    ensures var s, called := StateOf(tr, policy, run), Then(run, Fire(expired));
            if !HasStopped(run) && !expired && s.scheduled != []
            then StateOf(tr, policy, called) == s.(scheduled := s.scheduled[1..])
                 && Fired(tr, policy, called) == Fired(tr, policy, run) + Somes([s.scheduled[0]])
            else StateOf(tr, policy, called) == s && Fired(tr, policy, called) == Fired(tr, policy, run)
  {
    AcceptsIff(tr, policy, run);
    assert Fired(tr, policy, run) + [] == Fired(tr, policy, run);
  }

  /** The drain forgets what still waits, once admission was stopped, and nothing before. */
  lemma DrainForgets(tr: Trigger, policy: MissedRunPolicy, run: Run<Event>)
    requires Valid(tr)
    ensures var s, drained := StateOf(tr, policy, run), Then(run, Drained);
            && StateOf(tr, policy, drained).scheduled == (if HasStopped(run) then [] else s.scheduled)
            && Fired(tr, policy, drained) == Fired(tr, policy, run)
  {
    AcceptsIff(tr, policy, run);
    assert Fired(tr, policy, run) + [] == Fired(tr, policy, run);
  }

  /** `n` job calls within their deadlines. */
  ghost function Calls(run: Run<Event>, n: nat): Run<Event> {
    if n == 0 then run else Then(Calls(run, n - 1), Fire(false))
  }

  lemma {:induction false} CallsTake(tr: Trigger, policy: MissedRunPolicy, run: Run<Event>, n: nat)
    requires Valid(tr) && !HasStopped(run) && n <= |StateOf(tr, policy, run).scheduled|
    ensures var s := StateOf(tr, policy, run);
            && StateOf(tr, policy, Calls(run, n)) == s.(scheduled := s.scheduled[n..])
            && Admitted(tr, policy, Calls(run, n)) == Admitted(tr, policy, run)
            && !HasStopped(Calls(run, n))
  {
    if n > 0 {
      CallsTake(tr, policy, run, n - 1);
      JobCallTakesOne(tr, policy, Calls(run, n - 1), false);
      assert Admitted(tr, policy, Calls(run, n)) == Admitted(tr, policy, Calls(run, n - 1)) + [];
      hide Apply, Count, Admits, Fired, Somes;
    }
  }

  /** As many job calls as there are outcomes waiting, and every admission has fired, in order. */
  lemma EveryAdmissionFires(tr: Trigger, policy: MissedRunPolicy, run: Run<Event>)
    requires Valid(tr) && !HasStopped(run)
    ensures var called := Calls(run, |StateOf(tr, policy, run).scheduled|);
            Fired(tr, policy, called) == Admitted(tr, policy, run)
  {
    var called := Calls(run, |StateOf(tr, policy, run).scheduled|);
    CallsTake(tr, policy, run, |StateOf(tr, policy, run).scheduled|);
    AcceptsIff(tr, policy, called);
    AdmissionsAreConserved(tr, policy, called);
    hide StateOf, Fired, Admitted;
    assert Fired(tr, policy, called) + [] == Fired(tr, policy, called);
  }

  /** What fired is always a first part of what was admitted, so the fired times strictly increase. */
  lemma {:induction false} FiredTimesIncrease(tr: Trigger, policy: MissedRunPolicy, run: Run<Event>)
    requires Valid(tr)
    ensures Fired(tr, policy, run) <= Admitted(tr, policy, run)
    ensures Increasing(Fired(tr, policy, run))
  {
    AdmittedIncrease(tr, policy, run);
    if run.Then? {
      if StateOf(tr, policy, run).accepting {
        AdmissionsAreConserved(tr, policy, run);
      } else {
        FiredTimesIncrease(tr, policy, run.before);
        if StateOf(tr, policy, run.before).accepting {
          assert run.event.StopAdmission?;
        }
      }
    }
  }

  // ---------------------------------------------------------------------------
  // The endpoint object
  // ---------------------------------------------------------------------------

  class CronEndpoint {
    const tr: Trigger
    const policy: MissedRunPolicy
    var intervalNext: int
    var scheduled: seq<Option<int>>
    var accepting: bool

    constructor (tr: Trigger, policy: MissedRunPolicy)
      requires Valid(tr)
      ensures View() == Initial(tr, policy)
    {
      this.tr, this.policy := tr, policy;
      intervalNext, scheduled, accepting := tr.start, [], true;
    }

    function View(): State
      reads this
    {
      State(tr, policy, intervalNext, scheduled, accepting)
    }

    /** The scheduler's listener. */
    method OnSubmission(own: bool, times: seq<int>, submitted: bool)
      requires Valid(tr)
      modifies this
      ensures View() == Apply(old(View()), Submission(own, times, submitted))
    {
      if !own || times == [] {
        return;
      }
      var latest := times[|times| - 1];
      var count := (latest - intervalNext) / tr.step + 1;
      if count > 0 {
        intervalNext := latest + tr.step;
      }
      if !submitted {
        return;
      }
      var skip := count <= 0 || (count > 1 && policy == Skip);
      scheduled := scheduled + [if skip then None else Some(latest)];
    }

    /** The job's callback: one admission outcome per accepted run. */
    method ScheduledFire(expired: bool) returns (fired: seq<int>)
      requires Valid(tr)
      modifies this
      ensures View() == Apply(old(View()), Fire(expired)) && fired == Fires(old(View()), Fire(expired))
    {
      fired := [];
      if !accepting || expired || scheduled == [] {
        return;
      }
      var scheduledAt := scheduled[0];
      scheduled := scheduled[1..];
      if scheduledAt.Some? {
        fired := [scheduledAt.value];
      }
    }
  }
}
