/** One SubStream invocation.  Results are delivered by any number of tasks, one collector callback at
    a time under the call's lock; a delivering task that is cancelled still waits for its callback, and
    the invocation ends only after a close task has taken the lock.  The close task and the callback
    tasks are nobody else's to cancel. */
module SubStream {
  import opened Runs

  datatype Answer = More | Complete | Raised(error: string)

  /** Why an invocation failed. */
  datatype Failure = None | Cancelled | Expired | FromCollector(error: string)

  /** The delivery that holds the lock across its callback; `answers` is empty while the callback runs. */
  datatype Inside = Free | Calling(d: nat, cancelled: bool, answers: seq<Answer>)

  /** Where the caller of `consume` is suspended. */
  datatype Pc = Body | Waiting | Closing(ok: bool) | Returned | RaisedOut

  /** Where the close task is. */
  datatype Close = NotCreated | Created | WantLock | Closed

  datatype State = State(
    closed: bool,
    collector: bool,
    error: Failure,
    done: bool,
    waiting: set<nat>,
    inside: Inside,
    pc: Pc,
    close: Close)

  const INITIAL: State := State(false, true, None, false, {}, Free, Body, NotCreated)

  datatype Event =
    | Deliver(d: nat)
    | CancelWaiting(d: nat)
    | Acquire(d: nat, expired: Failure)
    | CallbackDone(answer: Answer)
    | CancelDelivery
    | Resume
    | BodyDone(ok: bool)
    | WaitDone(ok: bool)
    | CancelConsume
    | CloseRuns
    | CloseAcquires
    | ConsumeResumes

  predicate Enabled(s: State, e: Event) {
    match e
    case Deliver(d) => d !in s.waiting && (s.inside.Calling? ==> s.inside.d != d)
    case CancelWaiting(d) => d in s.waiting
    case Acquire(d, expired) => d in s.waiting && s.inside.Free? && !expired.FromCollector?
    case CallbackDone(_) => s.inside.Calling? && s.inside.answers == []
    case CancelDelivery => s.inside.Calling?
    case Resume => s.inside.Calling? && s.inside.answers != []
    case BodyDone(_) => s.pc.Body?
    case WaitDone(ok) => s.pc.Waiting? && (ok ==> s.done)
    case CancelConsume => s.pc.Closing?
    case CloseRuns => s.close.Created?
    case CloseAcquires => s.close.WantLock? && s.inside.Free?
    case ConsumeResumes => s.pc.Closing? && s.close.Closed?
  }

  /** The call is over: nothing is collected from here on. */
  function Finish(s: State, error: Failure): State {
    s.(closed := true, collector := false, done := true, error := error)
  }

  /** `_consume` is over; the close task is created. */
  function BeginClose(s: State, ok: bool): State {
    s.(pc := Closing(ok), close := Created)
  }

  /** What the delivering task records when its callback is over. */
  function FailureOf(cancelled: bool, answer: Answer): Failure {
    if answer.Raised? then FromCollector(answer.error) else if cancelled then Cancelled else None
  }

  function Apply(s: State, e: Event): State
    requires Enabled(s, e)
  {
    match e
    case Deliver(d) => if s.closed then s else s.(waiting := s.waiting + {d})
    case CancelWaiting(d) => s.(waiting := s.waiting - {d})
    case Acquire(d, expired) =>
      var t := s.(waiting := s.waiting - {d});
      if s.closed then t
      else if expired != None then Finish(t, expired)
      else if !s.collector then t
      else t.(inside := Calling(d, false, []))
    case CallbackDone(answer) => s.(inside := s.inside.(answers := [answer]))
    case CancelDelivery => s.(inside := s.inside.(cancelled := true))
    case Resume =>
      var answer := s.inside.answers[0];
      var t := s.(inside := Free);
      if FailureOf(s.inside.cancelled, answer) != None then Finish(t, FailureOf(s.inside.cancelled, answer))
      else if answer.Complete? then Finish(t, s.error)
      else t
    case BodyDone(ok) => if ok then s.(pc := Waiting) else BeginClose(s, false)
    case WaitDone(ok) => BeginClose(s, ok && s.error == None)
    case CancelConsume => s.(pc := Closing(false))
    case CloseRuns => s.(closed := true, close := WantLock)
    case CloseAcquires => s.(collector := false, close := Closed)
    case ConsumeResumes => s.(pc := if s.pc.ok then Returned else RaisedOut)
  }

  predicate Inv(s: State) {
    && (!s.collector ==> s.closed)
    && (s.done ==> !s.collector)
    && (s.error != None ==> s.done)
    && (s.inside.Calling? ==> s.collector && |s.inside.answers| <= 1)
    && (s.close.NotCreated? <==> s.pc.Body? || s.pc.Waiting?)
    && (s.pc.Returned? || s.pc.RaisedOut? ==> s.close.Closed?)
    && (s.close.WantLock? ==> s.closed)
    && (s.close.Closed? ==> !s.collector)
    && ((s.pc.Closing? && s.pc.ok) || s.pc.Returned? ==> s.done && s.error == None)
  }

  lemma {:induction false} StepKeepsInv(s: State, e: Event)
    requires Inv(s) && Enabled(s, e)
    ensures Inv(Apply(s, e))
  {
  }

  /** The state after a run.  An event whose guard does not hold cannot happen and changes nothing. */
  ghost function StateOf(run: Run<Event>): State {
    if run.Start? then INITIAL
    else
      var s := StateOf(run.before);
      if Enabled(s, run.event) then Apply(s, run.event) else s
  }

  lemma {:induction false} InvHolds(run: Run<Event>)
    ensures Inv(StateOf(run))
  {
    if run.Then? {
      InvHolds(run.before);
      if Enabled(StateOf(run.before), run.event) {
        StepKeepsInv(StateOf(run.before), run.event);
      }
    }
  }

  // ---------------------------------------------------------------------------
  // What the collector and the caller see
  // ---------------------------------------------------------------------------

  datatype Mark =
    | CallbackStart(d: nat)
    | CallbackEnd(d: nat, answer: Answer)
    | Failing(error: Failure)
    | NormalReturn
    | ErrorReturn

  function Seen(s: State, e: Event): seq<Mark> {
    if !Enabled(s, e) then []
    else match e
      case Acquire(d, expired) =>
        if s.closed then [] else if expired != None then [Failing(expired)]
        else if !s.collector then [] else [CallbackStart(d)]
      case CallbackDone(answer) => [CallbackEnd(s.inside.d, answer)]
      case Resume =>
        var failure := FailureOf(s.inside.cancelled, s.inside.answers[0]);
        if failure != None then [Failing(failure)] else []
      case ConsumeResumes => [if s.pc.ok then NormalReturn else ErrorReturn]
      case _ => []
  }

  ghost function History(run: Run<Event>): seq<Mark> {
    if run.Start? then [] else History(run.before) + Seen(StateOf(run.before), run.event)
  }

  /** The reference.  `Answered` and `Crashed` are callbacks whose delivery has not resumed yet. */
  datatype Stage = Open | Busy(d: nat) | Answered | Crashed | Failed | Over(ok: bool) | Broken

  /** One boundary of the reference; `Broken` when it is out of place. */
  function Next(q: Stage, m: Mark): Stage {
    match (q, m)
    case (Open, CallbackStart(d)) => Busy(d)
    case (Busy(d), CallbackEnd(c, answer)) =>
      if c != d then Broken else if answer.More? then Open else if answer.Complete? then Answered else Crashed
    case (Open, Failing(_)) => Failed
    case (Answered, Failing(f)) => if f == Cancelled then Failed else Broken
    case (Crashed, Failing(f)) => if f.FromCollector? then Failed else Broken
    case (Answered, NormalReturn) => Over(true)
    case (Open, ErrorReturn) => Over(false)
    case (Answered, ErrorReturn) => Over(false)
    case (Failed, ErrorReturn) => Over(false)
    case _ => Broken
  }

  function After(h: seq<Mark>): Stage {
    if h == [] then Open else Next(After(h[..|h| - 1]), h[|h| - 1])
  }

  function StageOf(s: State): Stage {
    if s.pc.Returned? then Over(true)
    else if s.pc.RaisedOut? then Over(false)
    else if s.inside.Calling? then
      if s.inside.answers == [] then Busy(s.inside.d)
      else match s.inside.answers[0]
        case More => Open
        case Complete => Answered
        case Raised(_) => Crashed
    else if s.error != None then Failed
    else if s.done then Answered
    else Open
  }

  lemma StepRefines(s: State, e: Event)
    requires Inv(s) && Enabled(s, e)
    ensures Seen(s, e) == [] ==> StageOf(Apply(s, e)) == StageOf(s)
    ensures Seen(s, e) != [] ==> |Seen(s, e)| == 1 && StageOf(Apply(s, e)) == Next(StageOf(s), Seen(s, e)[0])
  {
  }

  lemma {:induction false} AfterSeen(h: seq<Mark>, ms: seq<Mark>)
    requires |ms| <= 1
    ensures After(h + ms) == if ms == [] then After(h) else Next(After(h), ms[0])
  {
    if ms == [] {
      assert h + ms == h;
    } else {
      assert (h + ms)[..|h|] == h;
    }
  }

  lemma StageIsSound(s: State)
    ensures StageOf(s) != Broken && StageOf(INITIAL) == Open
  {
  }

  lemma NothingSeen(s: State, e: Event)
    requires !Enabled(s, e)
    ensures Seen(s, e) == []
  {
  }

  /** In every interleaving of deliveries, cancellations and the close, the callbacks follow the reference. */
  lemma {:induction false} HistoryFollowsReference(run: Run<Event>)
    ensures After(History(run)) == StageOf(StateOf(run)) && StageOf(StateOf(run)) != Broken
  {
    StageIsSound(StateOf(run));
    hide Apply, Enabled, Next, Seen, StageOf, Inv;
    if run.Then? {
      var s, e := StateOf(run.before), run.event;
      HistoryFollowsReference(run.before);
      InvHolds(run.before);
      if Enabled(s, e) {
        StepRefines(s, e);
      } else {
        NothingSeen(s, e);
      }
      AfterSeen(History(run.before), Seen(s, e));
    }
  }

  // ---------------------------------------------------------------------------
  // What the reference means
  // ---------------------------------------------------------------------------

  predicate Ends(m: Mark) {
    (m.CallbackEnd? && !m.answer.More?) || m.Failing? || m.NormalReturn? || m.ErrorReturn?
  }

  predicate Returns(m: Mark) {
    m.NormalReturn? || m.ErrorReturn?
  }

  /** Callbacks do not overlap: each ends before anything else happens. */
  ghost predicate Alternates(h: seq<Mark>, q: Stage) {
    && (forall i :: 0 <= i < |h| - 1 && h[i].CallbackStart? ==> h[i + 1].CallbackEnd? && h[i + 1].d == h[i].d)
    && (h != [] && h[|h| - 1].CallbackStart? <==> q.Busy?)
    && (q.Busy? ==> h[|h| - 1] == CallbackStart(q.d))
  }

  /** No callback starts after a final answer, a failure or the return, and the return is last. */
  ghost predicate StopsInTime(h: seq<Mark>, q: Stage) {
    && (forall i, j :: 0 <= i < j < |h| && Ends(h[i]) ==> !h[j].CallbackStart?)
    && (q.Open? || q.Busy? ==> forall i :: 0 <= i < |h| ==> !Ends(h[i]))
    && (forall i :: 0 <= i < |h| && Returns(h[i]) ==> i == |h| - 1 && q.Over?)
  }

  /** A normal return follows the one answer `true`. */
  ghost predicate ReturnsRightly(h: seq<Mark>, q: Stage) {
    && (q.Answered? ==> OneAnswer(h))
    && (q.Over? ==> h != [] && h[|h| - 1] == if q.ok then NormalReturn else ErrorReturn)
    && (q == Over(true) ==> OneAnswer(h[..|h| - 1]))
  }

  ghost predicate Shape(h: seq<Mark>, q: Stage) {
    Alternates(h, q) && StopsInTime(h, q) && ReturnsRightly(h, q)
  }

  /** Exactly one callback answered `true`, it is the last event, and nothing failed. */
  ghost predicate OneAnswer(h: seq<Mark>) {
    && h != [] && h[|h| - 1].CallbackEnd? && h[|h| - 1].answer.Complete?
    && forall i :: 0 <= i < |h| - 1 ==> !Ends(h[i])
  }

  lemma {:induction false} ReferenceMeans(h: seq<Mark>)
    requires After(h) != Broken
    ensures Shape(h, After(h))
  {
    if h != [] {
      var before, m := h[..|h| - 1], h[|h| - 1];
      ReferenceMeans(before);
      hide Alternates, StopsInTime, ReturnsRightly, Next;
      AlternatesGrows(before, After(before), m);
      StopsGrows(before, After(before), m);
      ReturnsGrows(before, After(before), m);
      assert h == before + [m];
    }
  }

  lemma {:induction false} AlternatesGrows(h: seq<Mark>, q: Stage, m: Mark)
    requires Alternates(h, q) && Next(q, m) != Broken
    ensures Alternates(h + [m], Next(q, m))
  {
    assert forall i :: 0 <= i < |h| ==> (h + [m])[i] == h[i];
  }

  lemma {:induction false} StopsGrows(h: seq<Mark>, q: Stage, m: Mark)
    requires StopsInTime(h, q) && Next(q, m) != Broken
    ensures StopsInTime(h + [m], Next(q, m))
  {
    assert forall i :: 0 <= i < |h| ==> (h + [m])[i] == h[i];
  }

  lemma {:induction false} ReturnsGrows(h: seq<Mark>, q: Stage, m: Mark)
    requires StopsInTime(h, q) && ReturnsRightly(h, q) && Next(q, m) != Broken
    ensures ReturnsRightly(h + [m], Next(q, m))
  {
    assert (h + [m])[..|h|] == h;
  }

  /** At most one callback is active at a time; none starts after one that answered `true`, after an error
      or after `consume` returned or raised, and none is active then; a normal return means that exactly
      one callback answered `true` and that it was the last. */
  lemma CallbacksAreSerialized(run: Run<Event>)
    ensures Shape(History(run), StageOf(StateOf(run)))
    ensures var s := StateOf(run); s.pc.Returned? || s.pc.RaisedOut? ==> s.inside.Free? && !s.collector
  {
    HistoryFollowsReference(run);
    ReferenceMeans(History(run));
    InvHolds(run);
  }

  /** When a delivery resumes after its callback, the invocation fails if and only if the callback raised or
      the delivery was cancelled, and it ends if and only if it fails or the answer was `true`. */
  lemma DeliveryFailsIff(run: Run<Event>, answer: Answer)
    requires var s := StateOf(run); s.inside.Calling? && s.inside.answers == [answer]
    ensures var s := StateOf(run);
            var t := Apply(s, Resume);
            && (t.error != None <==> answer.Raised? || s.inside.cancelled)
            && (t.error != None ==> t.error == if answer.Raised? then FromCollector(answer.error) else Cancelled)
            && (t.done <==> t.error != None || answer.Complete?)
  {
    InvHolds(run);
  }

  /** So an answer `true` fails the invocation if and only if its delivery was cancelled before it resumed. */
  lemma CompleteFailsIffCancelled(run: Run<Event>)
    requires var s := StateOf(run); s.inside.Calling? && s.inside.answers == [Complete]
    ensures var s := StateOf(run);
            var t := Apply(s, Resume);
            t.done && (t.error != None <==> s.inside.cancelled)
  {
    DeliveryFailsIff(run, Complete);
  }

  /** A run in which the collector answered `true` and the invocation failed all the same. */
  ghost function CancelledAnswerRun(d: nat): Run<Event> {
    Then(Then(Then(Then(Then(Start, Deliver(d)), Acquire(d, None)), CancelDelivery), CallbackDone(Complete)), Resume)
  }

  lemma {:induction false} CancelledAnswerFails(d: nat)
    ensures var run := CancelledAnswerRun(d);
            && StateOf(run).error == Cancelled
            && History(run) == [CallbackStart(d), CallbackEnd(d, Complete), Failing(Cancelled)]
  {
    var r1 := Then(Start, Deliver(d));
    var r2 := Then(r1, Acquire(d, None));
    var r3 := Then(r2, CancelDelivery);
    var r4 := Then(r3, CallbackDone(Complete));
    var called := INITIAL.(inside := Calling(d, true, []));
    assert StateOf(r1) == INITIAL.(waiting := {d}) && History(r1) == [];
    assert StateOf(r2).inside == Calling(d, false, []) && History(r2) == [CallbackStart(d)];
    assert StateOf(r3) == called && History(r3) == [CallbackStart(d)];
    assert StateOf(r4) == called.(inside := Calling(d, true, [Complete]));
    assert History(r4) == [CallbackStart(d), CallbackEnd(d, Complete)];
  }

  /** The delivery's callback was started and has not ended. */
  predicate Running(s: State, d: nat) {
    s.inside.Calling? && s.inside.d == d && s.inside.answers == []
  }

  lemma RunningStep(s: State, e: Event, d: nat)
    requires Running(s, d) && Enabled(s, e)
    ensures Running(Apply(s, e), d) || exists answer :: Seen(s, e) == [CallbackEnd(d, answer)]
  {
    if e.CallbackDone? {
      assert Seen(s, e) == [CallbackEnd(d, e.answer)];
    }
  }

  /** Whatever happens, and however often its delivery is cancelled, a callback that started stays the one
      inside the lock until it has ended. */
  lemma {:induction false} CallbackOutlastsCancellation(earlier: Run<Event>, later: Run<Event>, d: nat)
    requires Extends(later, earlier) && Running(StateOf(earlier), d)
    ensures Running(StateOf(later), d) || exists answer :: CallbackEnd(d, answer) in History(later)
  {
    hide Apply, Enabled, Seen, Running;
    if later != earlier {
      CallbackOutlastsCancellation(earlier, later.before, d);
      var s, e, h := StateOf(later.before), later.event, History(later.before);
      if answer :| CallbackEnd(d, answer) in h {
        assert CallbackEnd(d, answer) in History(later);
      } else if Enabled(s, e) {
        RunningStep(s, e, d);
        if answer :| Seen(s, e) == [CallbackEnd(d, answer)] {
          assert CallbackEnd(d, answer) in Seen(s, e);
          assert CallbackEnd(d, answer) in History(later);
        }
      }
    }
  }

  /** After the return, every delivery still on its way goes without a callback. */
  lemma LateDeliveriesAreDropped(run: Run<Event>, e: Event)
    requires var s := StateOf(run); (s.pc.Returned? || s.pc.RaisedOut?) && Enabled(s, e)
    ensures var s := StateOf(run);
            (e.Deliver? || e.Acquire? || e.CancelWaiting?) && Seen(s, e) == [] && Apply(s, e).waiting <= s.waiting
  {
    InvHolds(run);
  }

  // ---------------------------------------------------------------------------
  // What the events decide
  // ---------------------------------------------------------------------------

  /** The newest event could happen. */
  ghost predicate Happens(run: Run<Event>) {
    run.Then? && Enabled(StateOf(run.before), run.event)
  }

  /** The close task has run. */
  ghost predicate CloseRan(run: Run<Event>) {
    run.Then? && (CloseRan(run.before) || (Happens(run) && run.event.CloseRuns?))
  }

  /** A delivery has ended the invocation: it resumed with `true`, after an error or cancelled, or it found the
      request expired before its callback. */
  ghost predicate Ended(run: Run<Event>) {
    run.Then? &&
    (Ended(run.before) || (Happens(run) && EndsNow(StateOf(run.before), run.event, CloseRan(run.before))))
  }

  ghost predicate EndsNow(s: State, e: Event, closed: bool)
    requires Enabled(s, e)
  {
    match e
    case Resume => s.inside.cancelled || !s.inside.answers[0].More?
    case Acquire(_, expired) => expired != None && !closed
    case _ => false
  }

  lemma {:induction false} OverIff(run: Run<Event>)
    ensures var s := StateOf(run);
            && (s.closed <==> CloseRan(run) || Ended(run))
            && (s.done <==> Ended(run))
            && (s.pc.Body? || s.pc.Waiting? ==> !CloseRan(run))
  {
    if run.Then? {
      OverIff(run.before);
      InvHolds(run.before);
      hide Inv;
      if Happens(run) {
        OverStep(StateOf(run.before), run.event);
      }
      hide Apply;
    }
  }

  lemma OverStep(s: State, e: Event)
    requires Inv(s) && Enabled(s, e) && (s.pc.Body? || s.pc.Waiting? ==> (s.closed <==> s.done))
    ensures var t := Apply(s, e);
            var ends := EndsNow(s, e, s.closed);
            && (t.done <==> s.done || ends) && (t.closed <==> s.closed || ends || e.CloseRuns?)
            && (t.pc.Body? || t.pc.Waiting? ==> !e.CloseRuns? && (s.pc.Body? || s.pc.Waiting?))
  {
    match e
    case Resume =>
    case Acquire(_, _) =>
    case _ =>
  }

  /** A delivery goes to the lock, and there starts its callback, if and only if the invocation is not over and its
      request has not expired. */
  lemma CallbackStartsIff(run: Run<Event>, d: nat, expired: Failure)
    ensures var s := StateOf(run);
            && (Enabled(s, Deliver(d)) ==>
                  Apply(s, Deliver(d)).waiting == if CloseRan(run) || Ended(run) then s.waiting else s.waiting + {d})
            && (Enabled(s, Acquire(d, expired)) ==>
                  && Apply(s, Acquire(d, expired)).waiting == s.waiting - {d}
                  && Apply(s, Acquire(d, expired)).inside ==
                     if CloseRan(run) || Ended(run) || expired != None then Free else Calling(d, false, []))
  {
    OverIff(run);
    InvHolds(run);
    hide CloseRan, Ended, StateOf;
  }

  /** The callback under way was cancelled by its delivery's task, and how it was answered. */
  ghost predicate WasCancelled(run: Run<Event>) {
    run.Then? &&
    if Happens(run) && run.event.Acquire? then false
    else WasCancelled(run.before) || (Happens(run) && run.event.CancelDelivery?)
  }

  ghost function AnswersOf(run: Run<Event>): seq<Answer> {
    if run.Start? || (Happens(run) && run.event.Acquire?) then []
    else AnswersOf(run.before) + if Happens(run) && run.event.CallbackDone? then [run.event.answer] else []
  }

  /** What a delivery resumes with is what happened since its callback started. */
  lemma {:induction false} DeliveryResumesWith(run: Run<Event>)
    requires StateOf(run).inside.Calling?
    ensures var inside := StateOf(run).inside;
            (inside.cancelled <==> WasCancelled(run)) && inside.answers == AnswersOf(run)
  {
    var s, e := StateOf(run.before), run.event;
    if Happens(run) {
      InsideStep(s, e);
    }
    if s.inside.Calling? {
      DeliveryResumesWith(run.before);
    }
    hide Apply;
  }

  lemma InsideStep(s: State, e: Event)
    requires Enabled(s, e) && Apply(s, e).inside.Calling?
    ensures var inside := Apply(s, e).inside;
            if e.Acquire? then inside.answers == [] && !inside.cancelled
            else s.inside.Calling?
                 && (inside.cancelled <==> s.inside.cancelled || e.CancelDelivery?)
                 && inside.answers == s.inside.answers + if e.CallbackDone? then [e.answer] else []
  {
    match e
    case Acquire(_, _) =>
    case CallbackDone(_) =>
    case _ =>
  }

  /** A delivery cancelled before it has the lock is gone. */
  lemma CancelledWaiterLeaves(s: State, d: nat)
    requires Enabled(s, CancelWaiting(d))
    ensures Apply(s, CancelWaiting(d)) == s.(waiting := s.waiting - {d})
  {
  }

  /** The verdict on the invocation: its body succeeded, its wait succeeded when no error was recorded, and
      `consume` was not cancelled while it closed. */
  ghost function Verdict(run: Run<Event>): bool {
    run.Then? &&
    if !Happens(run) then Verdict(run.before)
    else Ruled(run.event, StateOf(run.before).error, Verdict(run.before))
  }

  predicate Ruled(e: Event, error: Failure, verdict: bool) {
    match e
    case BodyDone(ok) => false
    case WaitDone(ok) => ok && error == None
    case CancelConsume => false
    case _ => verdict
  }

  /** How `consume` stands to that verdict. */
  predicate Judged(pc: Pc, verdict: bool) {
    match pc
    case Closing(ok) => ok == verdict
    case Returned => verdict
    case RaisedOut => !verdict
    case _ => true
  }

  lemma {:induction false} ReturnFollowsVerdict(run: Run<Event>)
    ensures Judged(StateOf(run).pc, Verdict(run))
  {
    if run.Then? {
      ReturnFollowsVerdict(run.before);
      if Happens(run) {
        VerdictStep(StateOf(run.before), run.event, Verdict(run.before));
      }
      hide Apply, Judged;
    }
  }

  lemma VerdictStep(s: State, e: Event, verdict: bool)
    requires Enabled(s, e) && Judged(s.pc, verdict)
    ensures Judged(Apply(s, e).pc, Ruled(e, s.error, verdict))
  {
    match e
    case BodyDone(_) =>
    case WaitDone(_) =>
    case _ =>
  }

  /** When `consume` resumes after the close, it returns normally if and only if its wait succeeded on an
      invocation without an error and it was not cancelled since. */
  lemma ReturnsNormallyIff(run: Run<Event>)
    requires Enabled(StateOf(run), ConsumeResumes)
    ensures Apply(StateOf(run), ConsumeResumes).pc == if Verdict(run) then Returned else RaisedOut
  {
    ReturnFollowsVerdict(run);
  }

  /** The steps of `consume`: after its body it waits or, when that failed, closes at once; an invocation that has
      ended can be waited for; the close waits for the lock only, and `consume` for the close. */
  lemma ConsumeGoesOn(run: Run<Event>, ok: bool)
    ensures var s := StateOf(run);
            && (s.pc.Body? ==> Apply(s, BodyDone(ok)).pc == if ok then Waiting else Closing(false))
            && (s.pc.Waiting? && Ended(run) ==>
                  Enabled(s, WaitDone(true)) && Apply(s, WaitDone(true)).pc == Closing(s.error == None)
                  && Apply(s, WaitDone(true)).close.Created?)
            && (s.close.Created? ==> Enabled(s, CloseRuns) && Apply(s, CloseRuns).close.WantLock?)
            && (s.close.WantLock? && s.inside.Free? ==>
                  Enabled(s, CloseAcquires) && Apply(s, CloseAcquires).close.Closed? && !Apply(s, CloseAcquires).collector)
            && (s.pc.Closing? ==> (Enabled(s, ConsumeResumes) <==> s.close.Closed?))
  {
    OverIff(run);
    hide Ended, StateOf;
  }

  // ---------------------------------------------------------------------------
  // The call object
  // ---------------------------------------------------------------------------

  class SubStreamCall {
    var closed: bool
    var collector: bool
    var error: Failure
    var done: bool
    var waiting: set<nat>
    var inside: Inside
    var pc: Pc
    var close: Close

    constructor ()
      ensures View() == INITIAL
    {
      closed, collector, error, done := false, true, None, false;
      waiting, inside, pc, close := {}, Free, Body, NotCreated;
    }

    function View(): State
      reads this
    {
      State(closed, collector, error, done, waiting, inside, pc, close)
    }

    /** The delivery has the lock: check the call, then start the callback. */
    method BeginDelivery(d: nat, expired: Failure)
      requires Enabled(View(), Acquire(d, expired))
      modifies this
      ensures View() == Apply(old(View()), Acquire(d, expired))
    {
      waiting := waiting - {d};
      if closed {
        return;
      }
      if expired != None {
        error := expired;
        closed := true;
        collector := false;
        done := true;
        return;
      }
      if !collector {
        return;
      }
      inside := Calling(d, false, []);
    }

    /** The delivery resumes after its callback, drained if it was cancelled. */
    method FinishDelivery()
      requires Enabled(View(), Resume)
      modifies this
      ensures View() == Apply(old(View()), Resume)
    {
      var answer, cancelled := inside.answers[0], inside.cancelled;
      inside := Free;
      if cancelled || answer.Raised? {
        error := if answer.Raised? then FromCollector(answer.error) else Cancelled;
        closed := true;
        collector := false;
        done := true;
      } else if answer == Complete {
        closed := true;
        collector := false;
        done := true;
      }
    }

    /** `close` up to the lock, then under it. */
    method RunClose()
      requires Enabled(View(), CloseRuns)
      modifies this
      ensures View() == Apply(old(View()), CloseRuns)
    {
      closed := true;
      close := WantLock;
    }

    method FinishClose()
      requires Enabled(View(), CloseAcquires)
      modifies this
      ensures View() == Apply(old(View()), CloseAcquires)
    {
      collector := false;
      close := Closed;
    }

    /** The wait for the result is over: an error of the call is raised. */
    method FinishWait(ok: bool)
      requires Enabled(View(), WaitDone(ok))
      modifies this
      ensures View() == Apply(old(View()), WaitDone(ok))
    {
      close := Created;
      if !ok {
        pc := Closing(false);
      } else if error != None {
        pc := Closing(false);
      } else {
        pc := Closing(true);
      }
    }
  }

  /** What a wait on a shielded task sees each time it wakes. */
  datatype Wake = Finished | CancelledAgain(taskDone: bool)

  /** `_drain_task` over the wakes of its wait: it goes on exactly until the task is done. */
  method DrainTask(taskDone: bool, wakes: seq<Wake>) returns (used: nat, over: bool)
    ensures used <= |wakes|
    ensures forall i :: 0 <= i < used - 1 ==> wakes[i] == CancelledAgain(false)
    ensures over <==> taskDone || exists i :: 0 <= i < |wakes| && wakes[i] != CancelledAgain(false)
    ensures taskDone ==> used == 0
    ensures over && !taskDone ==> used > 0 && wakes[used - 1] != CancelledAgain(false)
    ensures !over ==> used == |wakes|
  {
    used, over := 0, taskDone;
    while !over && used < |wakes|
      invariant used <= |wakes| && (taskDone ==> used == 0 && over)
      invariant forall i :: 0 <= i < used && (i < used - 1 || !over) ==> wakes[i] == CancelledAgain(false)
      invariant over && !taskDone ==> used > 0 && wakes[used - 1] != CancelledAgain(false)
    {
      match wakes[used] {
        case Finished => over := true;
        case CancelledAgain(isDone) => over := isDone;
      }
      used := used + 1;
    }
  }
}
