/** gRPC sources: a request reserves its stream ID, its result callbacks share the read side of its
    lock, and a shielded task ends it under the write side while the RPC task may be cancelled again
    and again.  Only the RPC task and the callbacks are ever cancelled. */
module GrpcSource {
  import opened Runs

  /** Where the RPC task is suspended. */
  datatype Phase =
    | Beginning                    // in `begin_request`
    | Rejecting                    // in `end_request` of a request whose ID was taken
    | Reading                      // waiting for the next input message
    | Consuming                    // in `consume_message`
    | AwaitingResult               // input over, waiting for the response or for `done`
    | Finalizing                   // in the loop that shields the finalization
    | Returned

  /** Where the finalization task is. */
  datatype Final = NotStarted | WantWrite | Queued | Ending | Unlocking | Finished

  datatype Request = Request(
    sid: string,
    phase: Phase,
    final: Final,
    reserved: bool,
    closed: bool,
    writer: bool,
    waiting: bool,
    callbacks: set<string>,
    eof: bool)

  /** Where the delivery of one result is suspended. */
  datatype Pc =
    | AtLock(request: nat)
    | Running(request: nat, message: string)
    | Leaving(request: nat)

  datatype State = State(
    hasResult: bool,
    pending: map<string, nat>,
    requests: seq<Request>,
    deliveries: map<nat, Pc>)

  function Initial(hasResult: bool): State {
    State(hasResult, map[], [], map[])
  }

  datatype Event =
    | Arrive(sid: string)
    | BeginDone(r: nat, ok: bool)
    | RejectEndDone(r: nat)
    | MessageIn(r: nat)
    | SetCallback(r: nat, message: string)
    | MessageDone(r: nat, ok: bool, last: bool)
    | ReadFailed(r: nat)
    | InputOver(r: nat)
    | Completed(r: nat)
    | Cancel(r: nat)
    | QueueWrite(r: nat)
    | EnterWrite(r: nat)
    | EndDone(r: nat)
    | FinalizationDone(r: nat)
    | ShieldDone(r: nat)
    | Deliver(d: nat, sid: string)
    | EnterRead(d: nat, message: string)
    | CallbackDone(d: nat, remove: bool)
    | LeaveRead(d: nat)
    | CancelDelivery(d: nat)

  predicate IsDelivery(e: Event) {
    e.Deliver? || e.EnterRead? || e.CallbackDone? || e.LeaveRead? || e.CancelDelivery?
  }

  /** Some result delivery holds the read side of the request's lock. */
  predicate Read(s: State, r: nat) {
    exists d <- s.deliveries :: s.deliveries[d].request == r && !s.deliveries[d].AtLock?
  }

  predicate RequestEnabled(s: State, e: Event)
    requires !IsDelivery(e)
  {
    e.Arrive? ||
    (e.r < |s.requests| &&
     var q := s.requests[e.r];
     match e
     case BeginDone(_, _) => q.phase.Beginning?
     case RejectEndDone(_) => q.phase.Rejecting?
     case MessageIn(_) => q.phase.Reading?
     case SetCallback(_, _) => !q.phase.Beginning? && !q.phase.Rejecting? && s.hasResult
     case MessageDone(_, _, _) => q.phase.Consuming?
     case ReadFailed(_) => q.phase.Reading?
     case InputOver(_) => q.phase.Reading?
     case Completed(_) => q.phase.AwaitingResult?
     case Cancel(_) => !q.phase.Returned?
     case QueueWrite(_) => q.final.WantWrite?
     case EnterWrite(_) => q.final.Queued? && !q.writer && !Read(s, e.r)
     case EndDone(_) => q.final.Ending?
     case FinalizationDone(_) => q.final.Unlocking?
     case ShieldDone(_) => q.phase.Finalizing? && q.final.Finished?)
  }

  predicate DeliveryEnabled(s: State, e: Event)
    requires IsDelivery(e)
  {
    if e.Deliver? then e.d !in s.deliveries && (e.sid in s.pending ==> s.pending[e.sid] < |s.requests|)
    else
      e.d in s.deliveries && s.deliveries[e.d].request < |s.requests| &&
      var pc := s.deliveries[e.d];
      var q := s.requests[pc.request];
      match e
      case EnterRead(_, _) => pc.AtLock? && !q.writer && !q.waiting
      case CallbackDone(_, _) => pc.Running?
      case LeaveRead(_) => pc.Leaving?
      case CancelDelivery(_) => pc.AtLock? || pc.Running?
  }

  predicate Enabled(s: State, e: Event) {
    if IsDelivery(e) then DeliveryEnabled(s, e) else RequestEnabled(s, e)
  }

  function With(s: State, r: nat, q: Request): State
    requires r < |s.requests|
  {
    s.(requests := s.requests[r := q])
  }

  /** The operation is over, with or without an error: late results are refused from here on and the
      finalization task starts. */
  function Close(q: Request): Request {
    q.(closed := true, phase := Finalizing, final := WantWrite)
  }

  /** After a successful consumption `eof` is signalled; then the result is awaited, if there is one. */
  function AfterInput(s: State, q: Request): Request {
    var over := q.(eof := true);
    if s.hasResult then over.(phase := AwaitingResult) else Close(over)
  }

  /** The outer `finally`: the reservation goes with the request. */
  function Release(s: State, r: nat): State
    requires r < |s.requests|
  {
    var q := s.requests[r];
    var t := With(s, r, q.(phase := Returned, closed := true, callbacks := {}, reserved := false));
    if q.reserved then t.(pending := s.pending - {q.sid}) else t
  }

  function ApplyRequest(s: State, e: Event): State
    requires !IsDelivery(e) && RequestEnabled(s, e)
  {
    if e.Arrive? then s.(requests := s.requests + [Request(e.sid, Beginning, NotStarted, false, false, false, false, {}, false)])
    else
      var r, q := e.r, s.requests[e.r];
      match e
      case BeginDone(_, ok) =>
        if !ok then Release(s, r)
        else if q.sid in s.pending then With(s, r, q.(phase := Rejecting))
        else With(s, r, q.(phase := Reading, reserved := true)).(pending := s.pending[q.sid := r])
      case RejectEndDone(_) => Release(s, r)
      case MessageIn(_) => With(s, r, q.(phase := Consuming))
      case SetCallback(_, message) => With(s, r, q.(callbacks := q.callbacks + {message}))
      case MessageDone(_, ok, last) =>
        With(s, r, if !ok then Close(q) else if last then AfterInput(s, q) else q.(phase := Reading))
      case ReadFailed(_) => With(s, r, Close(q))
      case InputOver(_) => With(s, r, AfterInput(s, q))
      case Completed(_) => With(s, r, Close(q))
      case Cancel(_) =>
        (match q.phase
         case Beginning => Release(s, r)
         case Rejecting => Release(s, r)
         case Finalizing => if q.final.Finished? then Release(s, r) else s
         case _ => With(s, r, Close(q)))
      case QueueWrite(_) => With(s, r, q.(final := Queued, waiting := true))
      case EnterWrite(_) => With(s, r, q.(final := Ending, waiting := false, writer := true))
      case EndDone(_) => With(s, r, q.(final := Unlocking))
      case FinalizationDone(_) => With(s, r, q.(final := Finished, writer := false))
      case ShieldDone(_) => Release(s, r)
  }

  function ApplyDelivery(s: State, e: Event): State
    requires IsDelivery(e) && DeliveryEnabled(s, e)
  {
    if e.Deliver? then
      if e.sid !in s.pending || s.requests[s.pending[e.sid]].closed then s
      else s.(deliveries := s.deliveries[e.d := AtLock(s.pending[e.sid])])
    else
      var d, r := e.d, s.deliveries[e.d].request;
      var q := s.requests[r];
      match e
      case EnterRead(_, message) =>
        if q.sid !in s.pending || s.pending[q.sid] != r || q.closed || message !in q.callbacks
        then s.(deliveries := s.deliveries[d := Leaving(r)])
        else s.(deliveries := s.deliveries[d := Running(r, message)])
      case CallbackDone(_, remove) =>
        var t := if remove then With(s, r, q.(callbacks := q.callbacks - {s.deliveries[d].message})) else s;
        t.(deliveries := s.deliveries[d := Leaving(r)])
      case LeaveRead(_) => s.(deliveries := s.deliveries - {d})
      case CancelDelivery(_) =>
        if s.deliveries[d].Running? then s.(deliveries := s.deliveries[d := Leaving(r)])
        else s.(deliveries := s.deliveries - {d})
  }

  function Apply(s: State, e: Event): State
    requires Enabled(s, e)
  {
    if IsDelivery(e) then ApplyDelivery(s, e) else ApplyRequest(s, e)
  }

  // ---------------------------------------------------------------------------
  // Invariant
  // ---------------------------------------------------------------------------

  predicate Active(phase: Phase) {
    phase.Reading? || phase.Consuming? || phase.AwaitingResult?
  }

  predicate RequestOk(q: Request) {
    && (q.reserved <==> Active(q.phase) || q.phase.Finalizing?)
    && (q.closed <==> q.phase.Finalizing? || q.phase.Returned?)
    && (q.phase.Finalizing? ==> !q.final.NotStarted?)
    && (q.phase.Returned? ==> q.final.NotStarted? || q.final.Finished?)
    && (!q.phase.Finalizing? && !q.phase.Returned? ==> q.final.NotStarted?)
    && (q.writer <==> q.final.Ending? || q.final.Unlocking?)
    && (q.waiting <==> q.final.Queued?)
    && (q.phase.Beginning? || q.phase.Rejecting? ==> q.callbacks == {})
    && (q.phase.Beginning? || q.phase.Rejecting? || q.phase.Reading? || q.phase.Consuming? ==> !q.eof)
  }

  predicate PcOk(q: Request, pc: Pc) {
    match pc
    case AtLock(_) => !q.phase.Beginning? && !q.phase.Rejecting?
    case Running(_, _) => q.reserved && (q.final.NotStarted? || q.final.WantWrite? || q.final.Queued?)
    case Leaving(_) => !q.phase.Beginning? && !q.phase.Rejecting? && !q.writer
  }

  ghost predicate RequestsOk(s: State) {
    forall r {:trigger s.requests[r]} :: 0 <= r < |s.requests| ==> RequestOk(s.requests[r])
  }

  /** The pending map holds exactly the requests that reserved their ID. */
  ghost predicate PendingOk(s: State) {
    && (forall sid <- s.pending :: s.pending[sid] < |s.requests| && s.requests[s.pending[sid]].sid == sid
                                   && s.requests[s.pending[sid]].reserved)
    && (forall r {:trigger s.requests[r]} :: 0 <= r < |s.requests| && s.requests[r].reserved ==>
          s.requests[r].sid in s.pending && s.pending[s.requests[r].sid] == r)
  }

  ghost predicate DeliveriesOk(s: State) {
    forall d <- s.deliveries ::
      s.deliveries[d].request < |s.requests| && PcOk(s.requests[s.deliveries[d].request], s.deliveries[d])
  }

  ghost predicate Inv(s: State) {
    RequestsOk(s) && PendingOk(s) && DeliveriesOk(s)
  }

  /** Replacing one request, whatever happens to its reservation. */
  lemma RequestStep(s: State, r: nat, q: Request, pending: map<string, nat>)
    requires RequestsOk(s) && DeliveriesOk(s) && r < |s.requests| && RequestOk(q)
    requires forall d <- s.deliveries :: s.deliveries[d].request == r ==> PcOk(q, s.deliveries[d])
    ensures var t := With(s, r, q).(pending := pending); RequestsOk(t) && DeliveriesOk(t)
  {
  }

  lemma PendingSame(s: State, r: nat, q: Request)
    requires PendingOk(s) && r < |s.requests| && q.sid == s.requests[r].sid && q.reserved == s.requests[r].reserved
    ensures PendingOk(With(s, r, q))
  {
  }

  lemma PendingGrows(s: State, r: nat, q: Request)
    requires PendingOk(s) && r < |s.requests| && q.sid == s.requests[r].sid && q.reserved && !s.requests[r].reserved
    requires q.sid !in s.pending
    ensures PendingOk(With(s, r, q).(pending := s.pending[q.sid := r]))
  {
  }

  lemma PendingShrinks(s: State, r: nat, q: Request)
    requires PendingOk(s) && r < |s.requests| && q.sid == s.requests[r].sid && !q.reserved && s.requests[r].reserved
    ensures PendingOk(With(s, r, q).(pending := s.pending - {q.sid}))
  {
  }

  lemma DeliveryStepKeepsInv(s: State, d: nat, pc: Pc)
    requires Inv(s) && pc.request < |s.requests| && PcOk(s.requests[pc.request], pc)
    ensures Inv(s.(deliveries := s.deliveries[d := pc])) && Inv(s.(deliveries := s.deliveries - {d}))
  {
  }

  lemma ReleaseKeepsInv(s: State, r: nat)
    requires Inv(s) && r < |s.requests|
    requires var q := s.requests[r];
             q.phase.Beginning? || q.phase.Rejecting? || (q.phase.Finalizing? && q.final.Finished?)
    ensures Inv(Release(s, r))
  {
    var q := s.requests[r].(phase := Returned, closed := true, callbacks := {}, reserved := false);
    RequestStep(s, r, q, Release(s, r).pending);
    hide RequestsOk, DeliveriesOk;
    if s.requests[r].reserved {
      PendingShrinks(s, r, q);
    } else {
      PendingSame(s, r, q);
    }
  }

  lemma AdmissionKeepsInv(s: State, r: nat)
    requires Inv(s) && Enabled(s, BeginDone(r, true))
    ensures Inv(Apply(s, BeginDone(r, true)))
  {
    var q := s.requests[r];
    if q.sid in s.pending {
      RequestStep(s, r, q.(phase := Rejecting), s.pending);
      PendingSame(s, r, q.(phase := Rejecting));
    } else {
      var admitted := q.(phase := Reading, reserved := true);
      RequestStep(s, r, admitted, s.pending[q.sid := r]);
      PendingGrows(s, r, admitted);
    }
  }

  lemma ArrivalKeepsInv(s: State, sid: string)
    requires Inv(s)
    ensures Inv(Apply(s, Arrive(sid)))
  {
    var t := Apply(s, Arrive(sid));
    assert forall k :: 0 <= k < |s.requests| ==> t.requests[k] == s.requests[k];
  }

  /** Events that release the request at once. */
  predicate Releases(s: State, e: Event)
    requires Enabled(s, e)
  {
    (e.BeginDone? && !e.ok) || e.RejectEndDone? || e.ShieldDone? ||
    (e.Cancel? &&
     (s.requests[e.r].phase.Beginning? || s.requests[e.r].phase.Rejecting? ||
      (s.requests[e.r].phase.Finalizing? && s.requests[e.r].final.Finished?)))
  }

  /** The event changes nothing but its own request, which stays in order. */
  ghost predicate OwnRequestOnly(s: State, r: nat, t: State) {
    && r < |s.requests| && r < |t.requests| && t == With(s, r, t.requests[r]) && RequestOk(t.requests[r])
    && t.requests[r].sid == s.requests[r].sid && t.requests[r].reserved == s.requests[r].reserved
  }

  /** Steps of the finalization task. */
  predicate Finalizes(e: Event) {
    e.QueueWrite? || e.EnterWrite? || e.EndDone? || e.FinalizationDone?
  }

  lemma FinalizationEventIsOk(s: State, e: Event)
    requires RequestsOk(s) && Enabled(s, e) && Finalizes(e)
    ensures OwnRequestOnly(s, e.r, Apply(s, e))
  {
    hide Read;
    assert RequestOk(s.requests[e.r]);
    hide RequestsOk;
  }

  lemma InputEventIsOk(s: State, e: Event)
    requires RequestsOk(s) && Enabled(s, e) && !IsDelivery(e) && !e.Arrive? && !e.BeginDone? && !Releases(s, e)
    requires !Finalizes(e)
    ensures OwnRequestOnly(s, e.r, Apply(s, e))
  {
    hide Read;
    assert RequestOk(s.requests[e.r]);
    hide RequestsOk;
  }

  /** What an event that does not release its request does to it. */
  lemma RequestEventIsOk(s: State, e: Event)
    requires RequestsOk(s) && Enabled(s, e) && !IsDelivery(e) && !e.Arrive? && !e.BeginDone? && !Releases(s, e)
    ensures OwnRequestOnly(s, e.r, Apply(s, e))
  {
    if Finalizes(e) {
      FinalizationEventIsOk(s, e);
    } else {
      InputEventIsOk(s, e);
    }
  }

  lemma RequestEventKeepsPcs(s: State, e: Event, d: nat)
    requires DeliveriesOk(s) && Enabled(s, e) && !IsDelivery(e) && !e.Arrive? && !e.BeginDone? && !Releases(s, e)
    requires d in s.deliveries && s.deliveries[d].request == e.r && RequestOk(s.requests[e.r])
    ensures e.r < |Apply(s, e).requests| && PcOk(Apply(s, e).requests[e.r], s.deliveries[d])
  {
    assert PcOk(s.requests[e.r], s.deliveries[d]);
    assert e.EnterWrite? ==> s.deliveries[d].AtLock?;
    hide DeliveriesOk, Read;
  }

  lemma RequestEventKeepsInv(s: State, e: Event)
    requires Inv(s) && Enabled(s, e) && !IsDelivery(e) && !e.Arrive? && !e.BeginDone? && !Releases(s, e)
    ensures Inv(Apply(s, e))
  {
    RequestEventIsOk(s, e);
    assert RequestOk(s.requests[e.r]);
    var q := Apply(s, e).requests[e.r];
    forall d | d in s.deliveries && s.deliveries[d].request == e.r ensures PcOk(q, s.deliveries[d]) {
      RequestEventKeepsPcs(s, e, d);
    }
    hide Apply, Enabled, PcOk, RequestOk, Releases, PendingOk;
    RequestStep(s, e.r, q, s.pending);
    PendingSame(s, e.r, q);
  }

  lemma DeliveryEventKeepsInv(s: State, e: Event)
    requires Inv(s) && Enabled(s, e) && IsDelivery(e)
    ensures Inv(Apply(s, e))
  {
    if e.Deliver? {
      if Apply(s, e) != s {
        DeliveryStepKeepsInv(s, e.d, AtLock(s.pending[e.sid]));
      }
    } else {
      var r := s.deliveries[e.d].request;
      DeliveryStepKeepsInv(s, e.d, AtLock(r));
      if e.EnterRead? || e.CallbackDone? || (e.CancelDelivery? && s.deliveries[e.d].Running?) {
        var pc := Apply(s, e).deliveries[e.d];
        DeliveryStepKeepsInv(s, e.d, pc);
        if e.CallbackDone? && e.remove {
          var q := Apply(s, e).requests[r];
          RequestStep(s.(deliveries := s.deliveries[e.d := pc]), r, q, s.pending);
          PendingSame(s.(deliveries := s.deliveries[e.d := pc]), r, q);
        }
      }
    }
  }

  lemma {:induction false} StepKeepsInv(s: State, e: Event)
    requires Inv(s) && Enabled(s, e)
    ensures Inv(Apply(s, e)) && Apply(s, e).hasResult == s.hasResult
  {
    hide Inv;
    if IsDelivery(e) {
      DeliveryEventKeepsInv(s, e);
    } else if e.Arrive? {
      ArrivalKeepsInv(s, e.sid);
    } else if e == BeginDone(e.r, true) {
      AdmissionKeepsInv(s, e.r);
    } else if Releases(s, e) {
      ReleaseKeepsInv(s, e.r);
    } else {
      RequestEventKeepsInv(s, e);
    }
  }

  // ---------------------------------------------------------------------------
  // Runs and what the handler sees of one request
  // ---------------------------------------------------------------------------

  /** The state after a run.  An event whose guard does not hold cannot happen and changes nothing. */
  ghost function StateOf(hasResult: bool, run: Run<Event>): State {
    if run.Start? then Initial(hasResult)
    else
      var s := StateOf(hasResult, run.before);
      if Enabled(s, run.event) then Apply(s, run.event) else s
  }

  lemma InitialInv(hasResult: bool)
    ensures Inv(Initial(hasResult))
  {
  }

  lemma {:induction false} InvHolds(hasResult: bool, run: Run<Event>)
    ensures Inv(StateOf(hasResult, run)) && StateOf(hasResult, run).hasResult == hasResult
  {
    hide Apply, Enabled, Inv;
    if run.Start? {
      InitialInv(hasResult);
    } else {
      InvHolds(hasResult, run.before);
      if Enabled(StateOf(hasResult, run.before), run.event) {
        StepKeepsInv(StateOf(hasResult, run.before), run.event);
      }
    }
  }

  /** Starts and ends of the handler's callbacks, the admission decision and the end of the reservation. */
  datatype Mark =
    | BeginStart
    | BeginFailed
    | BeginOk
    | Rejected
    | Admitted
    | MessageStart
    | MessageEnd
    | Eof
    | CallbackStart(d: nat)
    | CallbackEnd(d: nat)
    | EndStart
    | EndOver
    | Released

  function RequestOf(s: State, e: Event): nat
    requires Enabled(s, e) && !e.Deliver?
  {
    if e.Arrive? then |s.requests| else if IsDelivery(e) then s.deliveries[e.d].request else e.r
  }

  function MarksNow(s: State, e: Event): seq<Mark>
    requires Enabled(s, e)
  {
    match e
    case Arrive(_) => [BeginStart]
    case BeginDone(r, ok) =>
      if !ok then [BeginFailed]
      else if s.requests[r].sid in s.pending then [BeginOk, Rejected, EndStart]
      else [BeginOk, Admitted]
    case RejectEndDone(_) => [EndOver]
    case MessageIn(_) => [MessageStart]
    case MessageDone(_, ok, last) => if ok && last then [MessageEnd, Eof] else [MessageEnd]
    case InputOver(_) => [Eof]
    case Cancel(r) =>
      (match s.requests[r].phase
       case Beginning => [BeginFailed]
       case Rejecting => [EndOver]
       case Consuming => [MessageEnd]
       case Finalizing => if s.requests[r].final.Finished? then [Released] else []
       case _ => [])
    case EnterWrite(_) => [EndStart]
    case EndDone(_) => [EndOver]
    case ShieldDone(_) => [Released]
    case EnterRead(d, _) => if Apply(s, e).deliveries[d].Running? then [CallbackStart(d)] else []
    case CallbackDone(d, _) => [CallbackEnd(d)]
    case CancelDelivery(d) => if s.deliveries[d].Running? then [CallbackEnd(d)] else []
    case _ => []
  }

  function Seen(s: State, e: Event, r: nat): seq<Mark> {
    if Enabled(s, e) && !e.Deliver? && RequestOf(s, e) == r then MarksNow(s, e) else []
  }

  ghost function History(hasResult: bool, run: Run<Event>, r: nat): seq<Mark> {
    if run.Start? then []
    else History(hasResult, run.before, r) + Seen(StateOf(hasResult, run.before), run.event, r)
  }

  // ---------------------------------------------------------------------------
  // The reference: one request's life
  // ---------------------------------------------------------------------------

  datatype Stage =
    | Unborn
    | Begun
    | Accepted
    | Refused
    | RefusedEnding
    | Open(busy: bool, eof: bool, callbacks: set<nat>)
    | EndingNow
    | Ended
    | Over
    | Broken

  /** One boundary of the reference; `Broken` when it is out of place. */
  function Next(q: Stage, m: Mark): Stage {
    match (q, m)
    case (Unborn, BeginStart) => Begun
    case (Begun, BeginFailed) => Over
    case (Begun, BeginOk) => Accepted
    case (Accepted, Rejected) => Refused
    case (Accepted, Admitted) => Open(false, false, {})
    case (Refused, EndStart) => RefusedEnding
    case (RefusedEnding, EndOver) => Over
    case (Open(busy, eof, cs), MessageStart) => if busy || eof then Broken else Open(true, eof, cs)
    case (Open(busy, eof, cs), MessageEnd) => if busy then Open(false, eof, cs) else Broken
    case (Open(busy, eof, cs), Eof) => if busy || eof then Broken else Open(false, true, cs)
    case (Open(busy, eof, cs), CallbackStart(d)) => if d in cs then Broken else Open(busy, eof, cs + {d})
    case (Open(busy, eof, cs), CallbackEnd(d)) => if d in cs then Open(busy, eof, cs - {d}) else Broken
    case (Open(busy, eof, cs), EndStart) => if busy || cs != {} then Broken else EndingNow
    case (EndingNow, EndOver) => Ended
    case (Ended, Released) => Over
    case _ => Broken
  }

  function After(q: Stage, ms: seq<Mark>): Stage {
    if ms == [] then q else Next(After(q, ms[..|ms| - 1]), ms[|ms| - 1])
  }

  lemma {:induction false} AfterConcat(q: Stage, xs: seq<Mark>, ys: seq<Mark>)
    ensures After(q, xs + ys) == After(After(q, xs), ys)
  {
    if ys == [] {
      assert xs + ys == xs;
    } else {
      AfterConcat(q, xs, ys[..|ys| - 1]);
      assert (xs + ys)[..|xs + ys| - 1] == xs + ys[..|ys| - 1];
    }
  }

  lemma AfterFew(q: Stage, a: Mark, b: Mark, c: Mark)
    ensures After(q, []) == q && After(q, [a]) == Next(q, a) && After(q, [a, b]) == Next(Next(q, a), b)
    ensures After(q, [a, b, c]) == Next(Next(Next(q, a), b), c)
  {
    hide Next;
    assert [a][..0] == [] && [a, b][..1] == [a] && [a, b, c][..2] == [a, b];
  }

  ghost function Callbacks(s: State, r: nat): set<nat> {
    set d | d in s.deliveries && s.deliveries[d].Running? && s.deliveries[d].request == r
  }

  function RequestStage(q: Request, callbacks: set<nat>): Stage {
    match q.phase
    case Beginning => Begun
    case Rejecting => RefusedEnding
    case Returned => Over
    case Finalizing =>
      (match q.final
       case Ending => EndingNow
       case Unlocking => Ended
       case Finished => Ended
       case _ => Open(false, q.eof, callbacks))
    case _ => Open(q.phase.Consuming?, q.eof, callbacks)
  }

  ghost function StageOf(s: State, r: nat): Stage {
    if r >= |s.requests| then Unborn else RequestStage(s.requests[r], Callbacks(s, r))
  }

  /** A step of the RPC task or of the finalization leaves other requests and all deliveries alone. */
  lemma RequestShape(s: State, e: Event)
    requires Enabled(s, e) && !IsDelivery(e) && !e.Arrive?
    ensures Apply(s, e).deliveries == s.deliveries && |Apply(s, e).requests| == |s.requests|
    ensures forall k :: 0 <= k < |s.requests| && k != e.r ==> Apply(s, e).requests[k] == s.requests[k]
  {
  }

  /** At most two marks are read off with the reference, three on a rejection. */
  lemma AfterMarks(q: Stage, ms: seq<Mark>)
    requires |ms| <= 3
    ensures After(q, ms) == (if |ms| == 0 then q else if |ms| == 1 then Next(q, ms[0])
                             else if |ms| == 2 then Next(Next(q, ms[0]), ms[1])
                             else Next(Next(Next(q, ms[0]), ms[1]), ms[2]))
  {
    AfterFew(q, if |ms| < 1 then Eof else ms[0], if |ms| < 2 then Eof else ms[1], if |ms| < 3 then Eof else ms[2]);
    assert |ms| == 1 ==> ms == [ms[0]];
    assert |ms| == 2 ==> ms == [ms[0], ms[1]];
    assert |ms| == 3 ==> ms == [ms[0], ms[1], ms[2]];
  }

  lemma {:induction false} AdmissionMarks(s: State, e: Event)
    requires Enabled(s, e) && e.BeginDone? && RequestOk(s.requests[e.r]) && Callbacks(s, e.r) == {}
    ensures After(StageOf(s, e.r), MarksNow(s, e)) == RequestStage(Apply(s, e).requests[e.r], Callbacks(s, e.r))
  {
    hide After, Callbacks;
    AfterMarks(StageOf(s, e.r), MarksNow(s, e));
  }

  lemma {:induction false} CancelMarks(s: State, e: Event)
    requires Enabled(s, e) && e.Cancel? && RequestOk(s.requests[e.r])
    ensures After(StageOf(s, e.r), MarksNow(s, e)) == RequestStage(Apply(s, e).requests[e.r], Callbacks(s, e.r))
  {
    hide After, Callbacks;
    AfterMarks(StageOf(s, e.r), MarksNow(s, e));
  }

  predicate IsFinalization(e: Event) {
    e.QueueWrite? || e.EnterWrite? || e.EndDone? || e.FinalizationDone? || e.ShieldDone?
  }

  lemma {:induction false} FinalizationMarks(s: State, e: Event)
    requires Enabled(s, e) && IsFinalization(e) && RequestOk(s.requests[e.r])
    requires e.EnterWrite? ==> Callbacks(s, e.r) == {}
    ensures After(StageOf(s, e.r), MarksNow(s, e)) == RequestStage(Apply(s, e).requests[e.r], Callbacks(s, e.r))
  {
    hide After, Callbacks, Read;
    AfterMarks(StageOf(s, e.r), MarksNow(s, e));
  }

  /** The RPC task's other steps. */
  lemma {:induction false} HandlingMarks(s: State, e: Event)
    requires Enabled(s, e) && !IsDelivery(e) && !e.Arrive? && !e.BeginDone? && !e.Cancel? && !IsFinalization(e)
    requires RequestOk(s.requests[e.r])
    ensures After(StageOf(s, e.r), MarksNow(s, e)) == RequestStage(Apply(s, e).requests[e.r], Callbacks(s, e.r))
  {
    hide After, Callbacks, Read;
    AfterMarks(StageOf(s, e.r), MarksNow(s, e));
  }

  /** No callback runs for a request not yet admitted, nor when the write side is granted. */
  lemma NoCallbacks(s: State, e: Event)
    requires Inv(s) && Enabled(s, e) && (e.EnterWrite? || e.BeginDone?)
    ensures Callbacks(s, e.r) == {}
  {
  }

  lemma {:induction false} RequestMarks(s: State, e: Event)
    requires Inv(s) && Enabled(s, e) && !IsDelivery(e) && !e.Arrive?
    ensures After(StageOf(s, e.r), MarksNow(s, e)) == RequestStage(Apply(s, e).requests[e.r], Callbacks(s, e.r))
  {
    hide After, Callbacks, Read, MarksNow, Apply, StageOf, RequestStage, RequestOk;
    assert RequestOk(s.requests[e.r]);
    if e.EnterWrite? || e.BeginDone? {
      NoCallbacks(s, e);
    }
    if e.BeginDone? {
      AdmissionMarks(s, e);
    } else if e.Cancel? {
      CancelMarks(s, e);
    } else if IsFinalization(e) {
      FinalizationMarks(s, e);
    } else {
      HandlingMarks(s, e);
    }
  }

  lemma {:induction false} RequestStepRefines(s: State, e: Event, r: nat)
    requires Inv(s) && Enabled(s, e) && !IsDelivery(e) && !e.Arrive?
    ensures After(StageOf(s, r), Seen(s, e, r)) == StageOf(Apply(s, e), r)
  {
    RequestShape(s, e);
    assert Callbacks(Apply(s, e), r) == Callbacks(s, r);
    hide After, MarksNow, Inv, Apply, RequestStage, Callbacks, RequestEnabled;
    if r == e.r {
      RequestMarks(s, e);
    } else {
      AfterMarks(StageOf(s, r), []);
    }
  }

  lemma {:induction false} ArrivalRefines(s: State, sid: string, r: nat)
    requires Inv(s)
    ensures After(StageOf(s, r), Seen(s, Arrive(sid), r)) == StageOf(Apply(s, Arrive(sid)), r)
  {
    AfterFew(StageOf(s, r), BeginStart, Eof, Eof);
    assert Callbacks(Apply(s, Arrive(sid)), r) == Callbacks(s, r);
  }

  /** A delivery changes only which callbacks run. */
  lemma {:induction false} DeliveryShape(s: State, e: Event, r: nat)
    requires Enabled(s, e) && IsDelivery(e)
    ensures var t, ms := Apply(s, e), Seen(s, e, r);
            && |t.requests| == |s.requests|
            && (forall k :: 0 <= k < |s.requests| ==> t.requests[k] == s.requests[k].(callbacks := t.requests[k].callbacks))
            && (ms == [] ==> Callbacks(t, r) == Callbacks(s, r))
            && (ms == [CallbackStart(e.d)] ==> e.d !in Callbacks(s, r) && Callbacks(t, r) == Callbacks(s, r) + {e.d})
            && (ms == [CallbackEnd(e.d)] ==> e.d in Callbacks(s, r) && Callbacks(t, r) == Callbacks(s, r) - {e.d})
            && (ms == [] || ms == [CallbackStart(e.d)] || ms == [CallbackEnd(e.d)])
  {
    hide ApplyRequest, RequestEnabled;
    match e
    case Deliver(_, _) =>
    case EnterRead(_, _) =>
    case CallbackDone(_, _) =>
    case CancelDelivery(_) =>
    case _ =>
  }

  lemma {:induction false} CallbackPlace(s: State, e: Event, r: nat)
    requires Inv(s) && Enabled(s, e) && IsDelivery(e) && Seen(s, e, r) != []
    ensures r < |s.requests| && RequestStage(s.requests[r], Callbacks(s, r)).Open?
  {
    hide PendingOk;
  }

  /** The reference under the start or the end of one callback. */
  lemma {:induction false} CallbackMark(p: Request, q: Request, before: set<nat>, after: set<nat>, m: Mark)
    requires q == p.(callbacks := q.callbacks) && RequestStage(p, before).Open?
    requires (m.CallbackStart? && m.d !in before && after == before + {m.d})
             || (m.CallbackEnd? && m.d in before && after == before - {m.d})
    ensures Next(RequestStage(p, before), m) == RequestStage(q, after)
  {
  }

  lemma {:induction false} DeliveryStepRefines(s: State, e: Event, r: nat)
    requires Inv(s) && Enabled(s, e) && IsDelivery(e)
    ensures After(StageOf(s, r), Seen(s, e, r)) == StageOf(Apply(s, e), r)
  {
    DeliveryShape(s, e, r);
    var ms, t := Seen(s, e, r), Apply(s, e);
    AfterMarks(StageOf(s, r), ms);
    if ms != [] {
      CallbackPlace(s, e, r);
      hide Apply, After, Seen, Inv, Callbacks, Enabled, RequestStage, Next;
      CallbackMark(s.requests[r], t.requests[r], Callbacks(s, r), Callbacks(t, r), ms[0]);
    } else {
      hide Apply, After, Seen, Inv, Callbacks, Enabled, Next;
    }
  }

  /** In every interleaving, each request's callbacks follow the reference. */
  lemma {:induction false} HistoryFollowsReference(hasResult: bool, run: Run<Event>, r: nat)
    ensures After(Unborn, History(hasResult, run, r)) == StageOf(StateOf(hasResult, run), r)
  {
    hide Apply, Enabled, Inv;
    if run.Then? {
      var s, e := StateOf(hasResult, run.before), run.event;
      HistoryFollowsReference(hasResult, run.before, r);
      InvHolds(hasResult, run.before);
      AfterConcat(Unborn, History(hasResult, run.before, r), Seen(s, e, r));
      if !Enabled(s, e) {
        assert Seen(s, e, r) == [];
      } else if IsDelivery(e) {
        DeliveryStepRefines(s, e, r);
      } else if e.Arrive? {
        ArrivalRefines(s, e.sid, r);
      } else {
        RequestStepRefines(s, e, r);
      }
    }
  }

  // ---------------------------------------------------------------------------
  // What the reference means
  // ---------------------------------------------------------------------------

  function Count(h: seq<Mark>, m: Mark): nat {
    if h == [] then 0 else Count(h[..|h| - 1], m) + if h[|h| - 1] == m then 1 else 0
  }

  predicate HasEnded(q: Stage) {
    q.Ended? || q.Over?
  }

  predicate EndBegan(q: Stage) {
    q.RefusedEnding? || q.EndingNow? || HasEnded(q)
  }

  /** A history the reference accepts ends a begun request at most once, and exactly once when it is over. */
  lemma {:induction false} EndsOnce(h: seq<Mark>)
    requires After(Unborn, h) != Broken
    ensures var q := After(Unborn, h);
            && (q.Unborn? || q.Begun? ==> BeginOk !in h)
            && (!q.Unborn? && !q.Begun? && !q.Over? ==> BeginOk in h)
            && Count(h, EndStart) == (if BeginOk in h && EndBegan(q) then 1 else 0)
            && Count(h, EndOver) == (if BeginOk in h && HasEnded(q) then 1 else 0)
  {
    if h != [] {
      var before := h[..|h| - 1];
      assert h == before + [h[|h| - 1]];
      EndsOnce(before);
    }
  }

  lemma {:induction false} PrefixAccepted(h: seq<Mark>, i: nat)
    requires After(Unborn, h) != Broken && i <= |h|
    ensures After(Unborn, h[..i]) != Broken
  {
    if i == |h| {
      assert h[..i] == h;
    } else {
      PrefixAccepted(h[..|h| - 1], i);
      assert h[..|h| - 1][..i] == h[..i];
    }
  }

  /** Callbacks started and not ended. */
  function Ongoing(h: seq<Mark>): set<nat> {
    if h == [] then {}
    else
      var rest := Ongoing(h[..|h| - 1]);
      match h[|h| - 1]
      case CallbackStart(d) => rest + {d}
      case CallbackEnd(d) => rest - {d}
      case _ => rest
  }

  lemma {:induction false} OngoingIs(h: seq<Mark>)
    requires After(Unborn, h) != Broken
    ensures var q := After(Unborn, h); Ongoing(h) == if q.Open? then q.callbacks else {}
  {
    if h != [] {
      OngoingIs(h[..|h| - 1]);
    }
  }

  /** Once `end_request` began, no message and no callback starts any more. */
  lemma {:induction false} NothingAfterEnd(h: seq<Mark>, i: nat)
    requires After(Unborn, h) != Broken && i < |h| && h[i] == EndStart
    ensures EndBegan(After(Unborn, h)) && forall j :: i < j < |h| ==> !h[j].CallbackStart? && !h[j].MessageStart?
  {
    if i < |h| - 1 {
      NothingAfterEnd(h[..|h| - 1], i);
    }
  }

  predicate QuietEnd(h: seq<Mark>, i: nat)
    requires i < |h|
  {
    Ongoing(h[..i]) == {} && forall j :: i < j < |h| ==> !h[j].CallbackStart? && !h[j].MessageStart?
  }

  lemma {:induction false} EndsAreQuiet(h: seq<Mark>, i: nat)
    requires After(Unborn, h) != Broken && i < |h| && h[i] == EndStart
    ensures QuietEnd(h, i)
  {
    NothingAfterEnd(h, i);
    PrefixAccepted(h, i + 1);
    assert h[..i + 1][..i] == h[..i];
    PrefixAccepted(h, i);
    OngoingIs(h[..i]);
  }

  /** Under cancellations at any suspension point: a request that began ends exactly once, with no result
      callback running from the start of its end on. */
  lemma EndRequestOnce(hasResult: bool, run: Run<Event>, r: nat)
    ensures var h, s := History(hasResult, run, r), StateOf(hasResult, run);
            && Count(h, EndStart) <= 1
            && (r < |s.requests| && s.requests[r].phase.Returned? && BeginOk in h
                ==> Count(h, EndStart) == 1 && Count(h, EndOver) == 1)
            && (forall i :: 0 <= i < |h| && h[i] == EndStart ==> QuietEnd(h, i))
  {
    var h, s := History(hasResult, run, r), StateOf(hasResult, run);
    HistoryFollowsReference(hasResult, run, r);
    StageIsSound(s, r);
    hide StageOf, StateOf, History, After, Count, QuietEnd;
    EndsOnce(h);
    forall i | 0 <= i < |h| && h[i] == EndStart ensures QuietEnd(h, i) {
      EndsAreQuiet(h, i);
    }
  }

  lemma StageIsSound(s: State, r: nat)
    ensures StageOf(s, r) != Broken
    ensures r < |s.requests| && s.requests[r].phase.Returned? ==> StageOf(s, r) == Over
  {
  }

  /** An admitted request keeps its stream ID reserved until its `end_request` has finished. */
  lemma ReservedUntilEnded(hasResult: bool, run: Run<Event>, r: nat)
    requires Admitted in History(hasResult, run, r)
    ensures var h, s := History(hasResult, run, r), StateOf(hasResult, run);
            r < |s.requests| && (Count(h, EndOver) == 1 || (s.requests[r].sid in s.pending && s.pending[s.requests[r].sid] == r))
  {
    var h := History(hasResult, run, r);
    HistoryFollowsReference(hasResult, run, r);
    InvHolds(hasResult, run);
    EndsOnce(h);
    AdmittedStage(h);
  }

  lemma {:induction false} AdmittedStage(h: seq<Mark>)
    requires After(Unborn, h) != Broken && Admitted in h
    ensures var q := After(Unborn, h); BeginOk in h && (q.Open? || q.EndingNow? || HasEnded(q))
  {
    var before := h[..|h| - 1];
    assert h == before + [h[|h| - 1]];
    EndsOnce(before);
    if Admitted in before {
      AdmittedStage(before);
    }
  }

  /** A request in its finalization stays there, or has returned after the finalization was done. */
  predicate Settling(q: Request) {
    q.phase.Finalizing? || (q.phase.Returned? && q.final.Finished?)
  }

  lemma SettlingStep(s: State, e: Event, r: nat)
    requires Inv(s) && Enabled(s, e) && r < |s.requests| && Settling(s.requests[r])
    ensures r < |Apply(s, e).requests| && Settling(Apply(s, e).requests[r])
  {
    hide PendingOk, DeliveriesOk, Read;
    assert RequestOk(s.requests[r]);
    if !IsDelivery(e) && !e.Arrive? {
      RequestShape(s, e);
    }
  }

  /** Once a request is being finalized, no later cancellation of its RPC, however many there are and
      whatever else happens, makes it return before its one `end_request` has finished. */
  lemma {:induction false} FinalizationOutlastsCancellation(hasResult: bool, later: Run<Event>, earlier: Run<Event>, r: nat)
    requires Extends(later, earlier)
    requires r < |StateOf(hasResult, earlier).requests| && StateOf(hasResult, earlier).requests[r].phase.Finalizing?
    ensures r < |StateOf(hasResult, later).requests|
    ensures var q, h := StateOf(hasResult, later).requests[r], History(hasResult, later, r);
            && BeginOk in h && Settling(q)
            && (q.phase.Returned? ==> Count(h, EndStart) == 1 && Count(h, EndOver) == 1)
            && (Count(h, EndOver) == 0 ==> q.phase.Finalizing?)
  {
    SettlesOnward(hasResult, later, earlier, r);
    EndRequestOnce(hasResult, later, r);
  }

  lemma {:induction false} SettlesOnward(hasResult: bool, later: Run<Event>, earlier: Run<Event>, r: nat)
    requires Extends(later, earlier)
    requires r < |StateOf(hasResult, earlier).requests| && StateOf(hasResult, earlier).requests[r].phase.Finalizing?
    ensures r < |StateOf(hasResult, later).requests| && Settling(StateOf(hasResult, later).requests[r])
    ensures BeginOk in History(hasResult, later, r)
  {
    hide Apply, Enabled, Inv, Seen;
    if later == earlier {
      FinalizingHasBegun(hasResult, later, r);
    } else {
      SettlesOnward(hasResult, later.before, earlier, r);
      InvHolds(hasResult, later.before);
      if Enabled(StateOf(hasResult, later.before), later.event) {
        SettlingStep(StateOf(hasResult, later.before), later.event, r);
      }
    }
  }

  lemma FinalizingHasBegun(hasResult: bool, run: Run<Event>, r: nat)
    requires r < |StateOf(hasResult, run).requests| && StateOf(hasResult, run).requests[r].phase.Finalizing?
    ensures BeginOk in History(hasResult, run, r)
  {
    HistoryFollowsReference(hasResult, run, r);
    FinalizingStage(StateOf(hasResult, run), r);
    hide StateOf, History, StageOf;
    EndsOnce(History(hasResult, run, r));
  }

  lemma FinalizingStage(s: State, r: nat)
    requires r < |s.requests| && s.requests[r].phase.Finalizing?
    ensures var q := StageOf(s, r); q.Open? || q.EndingNow? || q.Ended?
  {
  }

  // ---------------------------------------------------------------------------
  // What the events decide
  // ---------------------------------------------------------------------------

  /** The newest event could happen. */
  ghost predicate Happens(hasResult: bool, run: Run<Event>) {
    run.Then? && Enabled(StateOf(hasResult, run.before), run.event)
  }

  /** The event ends the request's input. */
  predicate EndsInput(e: Event, r: nat) {
    e == InputOver(r) || e == MessageDone(r, true, true)
  }

  /** The event ends the request's operation whatever its input: its result is complete, a read or a message
      failed, or its RPC is cancelled while it is being served. */
  predicate Cuts(s: State, e: Event, r: nat) {
    || e == Completed(r) || e == ReadFailed(r) || (e.MessageDone? && e.r == r && !e.ok)
    || (e == Cancel(r) && r < |s.requests| && Active(s.requests[r].phase))
  }

  ghost predicate InputEnded(hasResult: bool, run: Run<Event>, r: nat) {
    run.Then? && (InputEnded(hasResult, run.before, r) || (Happens(hasResult, run) && EndsInput(run.event, r)))
  }

  ghost predicate WasCut(hasResult: bool, run: Run<Event>, r: nat) {
    run.Then? &&
    (WasCut(hasResult, run.before, r) || (Happens(hasResult, run) && Cuts(StateOf(hasResult, run.before), run.event, r)))
  }

  /** How far the operation is, given what has happened to it. */
  predicate Follows(hasResult: bool, q: Request, input: bool, cut: bool) {
    match q.phase
    case AwaitingResult => hasResult && input && !cut
    case Finalizing => cut || (input && !hasResult)
    case Returned => if q.final.Finished? then cut || (input && !hasResult) else !input && !cut
    case _ => !input && !cut
  }

  lemma {:induction false} FinalizationFollows(s: State, e: Event, input: bool, cut: bool)
    requires Enabled(s, e) && Finalizes(e)
    requires RequestOk(s.requests[e.r]) && Follows(s.hasResult, s.requests[e.r], input, cut)
    ensures e.r < |Apply(s, e).requests|
    ensures Follows(s.hasResult, Apply(s, e).requests[e.r], input, cut)
    ensures !EndsInput(e, e.r) && !Cuts(s, e, e.r)
  {
    hide Read;
  }

  lemma {:induction false} CancelFollows(s: State, r: nat, input: bool, cut: bool)
    requires Enabled(s, Cancel(r)) && RequestOk(s.requests[r]) && Follows(s.hasResult, s.requests[r], input, cut)
    ensures r < |Apply(s, Cancel(r)).requests|
    ensures Follows(s.hasResult, Apply(s, Cancel(r)).requests[r], input, cut || Cuts(s, Cancel(r), r))
  {
    hide Read;
  }

  lemma {:induction false} FollowsStep(s: State, e: Event, input: bool, cut: bool)
    requires Enabled(s, e) && !IsDelivery(e) && !e.Arrive?
    requires RequestOk(s.requests[e.r]) && Follows(s.hasResult, s.requests[e.r], input, cut)
    ensures e.r < |Apply(s, e).requests|
    ensures Follows(s.hasResult, Apply(s, e).requests[e.r], input || EndsInput(e, e.r), cut || Cuts(s, e, e.r))
  {
    if Finalizes(e) {
      FinalizationFollows(s, e, input, cut);
    } else if e.Cancel? {
      CancelFollows(s, e.r, input, cut);
    } else {
      hide Read, DeliveryEnabled, ApplyDelivery;
      match e
      case BeginDone(_, ok) =>
      case RejectEndDone(_) =>
      case MessageIn(_) =>
      case MessageDone(_, ok, last) =>
      case ShieldDone(_) =>
      case _ =>
    }
  }

  /** Requests only come by arriving, and others are left alone. */
  lemma OthersStay(s: State, e: Event, r: nat)
    requires Enabled(s, e) && r < |s.requests| && (IsDelivery(e) || e.Arrive? || e.r != r)
    ensures r < |Apply(s, e).requests| && Apply(s, e).requests[r] == s.requests[r].(callbacks := Apply(s, e).requests[r].callbacks)
    ensures !EndsInput(e, r) && !Cuts(s, e, r)
  {
    if IsDelivery(e) {
      DeliveryShape(s, e, r);
    } else if !e.Arrive? {
      RequestShape(s, e);
    }
    hide ApplyRequest, ApplyDelivery, RequestEnabled, DeliveryEnabled;
  }

  lemma RequestsCome(s: State, e: Event)
    requires Enabled(s, e)
    ensures |s.requests| <= |Apply(s, e).requests|
    ensures |s.requests| < |Apply(s, e).requests| ==>
              e.Arrive? && |Apply(s, e).requests| == |s.requests| + 1 && Apply(s, e).requests[|s.requests|].phase.Beginning?
              && Apply(s, e).requests[|s.requests|].callbacks == {}
    ensures !e.Arrive? && !IsDelivery(e) ==> e.r < |s.requests|
  {
    if IsDelivery(e) {
      DeliveryShape(s, e, 0);
      hide ApplyRequest, ApplyDelivery;
    } else if !e.Arrive? {
      RequestShape(s, e);
      hide ApplyRequest, ApplyDelivery;
    }
  }

  lemma {:induction false} NothingYet(hasResult: bool, run: Run<Event>, r: nat)
    requires r >= |StateOf(hasResult, run).requests|
    ensures !InputEnded(hasResult, run, r) && !WasCut(hasResult, run, r)
  {
    hide Apply, Enabled;
    if run.Then? {
      if Happens(hasResult, run) {
        RequestsCome(StateOf(hasResult, run.before), run.event);
      }
      NothingYet(hasResult, run.before, r);
    }
  }

  /** In every interleaving, a request awaits its result exactly when there is one to await, its input has ended and
      nothing has cut it short; and it is finalized, or has been, exactly when something cut it short, or its input
      ended and there is no result. */
  lemma {:induction false} OperationFollowsEvents(hasResult: bool, run: Run<Event>, r: nat)
    requires r < |StateOf(hasResult, run).requests|
    ensures Follows(hasResult, StateOf(hasResult, run).requests[r], InputEnded(hasResult, run, r), WasCut(hasResult, run, r))
  {
    var s, e := StateOf(hasResult, run.before), run.event;
    InvHolds(hasResult, run.before);
    assert r < |s.requests| ==> RequestOk(s.requests[r]);
    hide Apply, Enabled, Inv, Follows, Cuts, RequestOk;
    if r < |s.requests| {
      OperationFollowsEvents(hasResult, run.before, r);
    } else {
      NothingYet(hasResult, run.before, r);
    }
    if Happens(hasResult, run) {
      var input, cut := InputEnded(hasResult, run.before, r), WasCut(hasResult, run.before, r);
      RequestsCome(s, e);
      if r >= |s.requests| {
        NewFollows(hasResult, s, e, r);
      } else if IsDelivery(e) || e.Arrive? || e.r != r {
        OthersStay(s, e, r);
        CallbacksDoNotMatter(hasResult, s.requests[r], Apply(s, e).requests[r].callbacks, input, cut);
      } else {
        FollowsStep(s, e, input, cut);
      }
    }
  }

  lemma CallbacksDoNotMatter(hasResult: bool, q: Request, callbacks: set<string>, input: bool, cut: bool)
    requires Follows(hasResult, q, input, cut)
    ensures Follows(hasResult, q.(callbacks := callbacks), input, cut)
  {
  }

  lemma NewFollows(hasResult: bool, s: State, e: Event, r: nat)
    requires Enabled(s, e) && e.Arrive? && r == |s.requests|
    ensures r < |Apply(s, e).requests| && Follows(hasResult, Apply(s, e).requests[r], false, false)
    ensures !EndsInput(e, r) && !Cuts(s, e, r)
  {
  }

  /** With a result, the finalization begins only after the result is complete, a read or a message failed, or the
      RPC was cancelled; the end of the input alone does not begin it. */
  lemma FinalizedOnlyForCause(run: Run<Event>, r: nat)
    requires r < |StateOf(true, run).requests|
    ensures StateOf(true, run).requests[r].phase.Finalizing? ==> WasCut(true, run, r)
    ensures InputEnded(true, run, r) && !WasCut(true, run, r) ==> StateOf(true, run).requests[r].phase.AwaitingResult?
  {
    OperationFollowsEvents(true, run, r);
    InvHolds(true, run);
  }

  /** Without one, a request never waits for a result, and the end of its input begins its finalization. */
  lemma InputEndFinalizes(run: Run<Event>, r: nat)
    requires r < |StateOf(false, run).requests|
    ensures var q := StateOf(false, run).requests[r];
            && !q.phase.AwaitingResult?
            && (InputEnded(false, run, r) ==> q.phase.Finalizing? || (q.phase.Returned? && q.final.Finished?))
  {
    OperationFollowsEvents(false, run, r);
  }

  /** The finalization's steps, from the operation's end to the return: it asks for the write side, gets it as soon as
      no callback holds the read side, and gives it back before the request returns and gives up its ID. */
  lemma FinalizationGoesOn(hasResult: bool, run: Run<Event>, r: nat)
    requires r < |StateOf(hasResult, run).requests|
    ensures var s := StateOf(hasResult, run);
            var q := s.requests[r];
            && (q.final.WantWrite? ==>
                  Enabled(s, QueueWrite(r)) && Apply(s, QueueWrite(r)) == With(s, r, q.(final := Queued, waiting := true)))
            && (q.final.Queued? ==>
                  (Enabled(s, EnterWrite(r)) <==>
                   forall d <- s.deliveries :: s.deliveries[d].request == r ==> s.deliveries[d].AtLock?))
            && (q.final.Unlocking? ==>
                  Enabled(s, FinalizationDone(r))
                  && Apply(s, FinalizationDone(r)) == With(s, r, q.(final := Finished, writer := false)))
            && (q.phase.Finalizing? && q.final.Finished? ==> Enabled(s, ShieldDone(r)) && GivesUp(s, r, Apply(s, ShieldDone(r))))
  {
    InvHolds(hasResult, run);
    var s := StateOf(hasResult, run);
    assert RequestOk(s.requests[r]);
    var q := s.requests[r];
    hide Enabled, Apply, GivesUp, Inv, StateOf, RequestOk;
    if q.final.WantWrite? {
      FinalizationQueues(s, r);
    } else if q.final.Queued? {
      FinalizationEnters(s, r);
    } else if q.final.Unlocking? {
      FinalizationEnds(s, r);
    } else if q.final.Finished? && q.phase.Finalizing? {
      ShieldEnds(s, r);
    }
  }

  /** The request has returned and its stream ID is free. */
  predicate GivesUp(s: State, r: nat, t: State) {
    && r < |s.requests| && r < |t.requests| && t.requests[r].phase.Returned? && !t.requests[r].reserved
    && t.pending == s.pending - {s.requests[r].sid}
  }

  lemma FinalizationQueues(s: State, r: nat)
    requires r < |s.requests| && s.requests[r].final.WantWrite?
    ensures Enabled(s, QueueWrite(r)) && Apply(s, QueueWrite(r)) == With(s, r, s.requests[r].(final := Queued, waiting := true))
  {
  }

  lemma FinalizationEnters(s: State, r: nat)
    requires r < |s.requests| && s.requests[r].final.Queued? && RequestOk(s.requests[r])
    ensures Enabled(s, EnterWrite(r)) <==> forall d <- s.deliveries :: s.deliveries[d].request == r ==> s.deliveries[d].AtLock?
  {
  }

  lemma FinalizationEnds(s: State, r: nat)
    requires r < |s.requests| && s.requests[r].final.Unlocking?
    ensures Enabled(s, FinalizationDone(r))
    ensures Apply(s, FinalizationDone(r)) == With(s, r, s.requests[r].(final := Finished, writer := false))
  {
  }

  lemma ShieldEnds(s: State, r: nat)
    requires r < |s.requests| && s.requests[r].phase.Finalizing? && s.requests[r].final.Finished? && RequestOk(s.requests[r])
    ensures Enabled(s, ShieldDone(r)) && GivesUp(s, r, Apply(s, ShieldDone(r)))
  {
  }

  /** The result callback is registered: it was set, and no callback that ran since then said it is done with. */
  ghost predicate Registered(hasResult: bool, run: Run<Event>, r: nat, message: string) {
    run.Then? &&
    if !Happens(hasResult, run) then Registered(hasResult, run.before, r, message)
    else RegisteredNow(StateOf(hasResult, run.before), run.event, r, message, Registered(hasResult, run.before, r, message))
  }

  predicate RegisteredNow(s: State, e: Event, r: nat, message: string, before: bool)
    requires Enabled(s, e)
  {
    if e == SetCallback(r, message) then true
    else if e.CallbackDone? && e.remove && s.deliveries[e.d] == Running(r, message) then false
    else before
  }

  lemma {:induction false} DeliveryRegisters(s: State, e: Event, r: nat, message: string)
    requires Enabled(s, e) && IsDelivery(e) && r < |s.requests|
    ensures r < |Apply(s, e).requests| && Apply(s, e).requests[r].phase == s.requests[r].phase
    ensures message in Apply(s, e).requests[r].callbacks <==> RegisteredNow(s, e, r, message, message in s.requests[r].callbacks)
  {
    hide RequestEnabled, ApplyRequest;
    match e
    case CallbackDone(_, _) =>
    case _ =>
  }

  /** Only setting a callback and returning change a request's callbacks, as far as the request itself goes. */
  lemma FinalizationKeepsCallbacks(s: State, e: Event)
    requires Enabled(s, e) && Finalizes(e)
    ensures e.r < |Apply(s, e).requests|
    ensures var q, p := Apply(s, e).requests[e.r], s.requests[e.r]; q.callbacks == p.callbacks && q.phase == p.phase
  {
    hide Read, DeliveryEnabled, ApplyDelivery;
  }

  lemma InputKeepsCallbacks(s: State, e: Event)
    requires Enabled(s, e) && !IsDelivery(e) && !e.Arrive? && !Finalizes(e) && !Releases(s, e) && !e.SetCallback?
    ensures e.r < |Apply(s, e).requests|
    ensures var q, p := Apply(s, e).requests[e.r], s.requests[e.r];
            q.callbacks == p.callbacks && !p.phase.Returned?
  {
    hide Read, DeliveryEnabled, ApplyDelivery;
    match e
    case BeginDone(_, _) =>
    case Cancel(_) =>
    case MessageDone(_, _, _) =>
    case _ =>
  }

  lemma ReleaseReturns(s: State, e: Event)
    requires Enabled(s, e) && !IsDelivery(e) && !e.Arrive? && Releases(s, e)
    ensures e.r < |Apply(s, e).requests| && Apply(s, e).requests[e.r].phase.Returned?
  {
    hide Read, DeliveryEnabled, ApplyDelivery;
    match e
    case BeginDone(_, _) =>
    case Cancel(_) =>
    case _ =>
  }

  lemma {:induction false} RequestRegisters(s: State, e: Event, r: nat, message: string)
    requires Enabled(s, e) && !IsDelivery(e) && !e.Arrive? && e.r == r
    ensures r < |Apply(s, e).requests|
    ensures !Apply(s, e).requests[r].phase.Returned? ==>
              !s.requests[r].phase.Returned?
              && (message in Apply(s, e).requests[r].callbacks
                  <==> RegisteredNow(s, e, r, message, message in s.requests[r].callbacks))
  {
    if !e.SetCallback? {
      hide Apply, Read, Releases;
      if Finalizes(e) {
        FinalizationKeepsCallbacks(s, e);
      } else if Releases(s, e) {
        ReleaseReturns(s, e);
      } else {
        InputKeepsCallbacks(s, e);
      }
    }
  }

  lemma {:induction false} RegisterStep(s: State, e: Event, r: nat, message: string)
    requires Enabled(s, e) && r < |s.requests|
    ensures r < |Apply(s, e).requests|
    ensures !Apply(s, e).requests[r].phase.Returned? ==>
              !s.requests[r].phase.Returned?
              && (message in Apply(s, e).requests[r].callbacks
                  <==> RegisteredNow(s, e, r, message, message in s.requests[r].callbacks))
  {
    if IsDelivery(e) {
      DeliveryRegisters(s, e, r, message);
    } else if !e.Arrive? {
      hide ApplyRequest, RequestEnabled;
      if e.r == r {
        RequestRegisters(s, e, r, message);
      } else {
        RequestShape(s, e);
      }
    }
  }

  lemma {:induction false} NotRegisteredYet(hasResult: bool, run: Run<Event>, r: nat, message: string)
    requires r >= |StateOf(hasResult, run).requests|
    ensures !Registered(hasResult, run, r, message)
  {
    hide Apply, Enabled;
    if run.Then? {
      if Happens(hasResult, run) {
        RequestsCome(StateOf(hasResult, run.before), run.event);
      }
      NotRegisteredYet(hasResult, run.before, r, message);
    }
  }

  lemma {:induction false} CallbacksAreRegistered(hasResult: bool, run: Run<Event>, r: nat, message: string)
    requires r < |StateOf(hasResult, run).requests| && !StateOf(hasResult, run).requests[r].phase.Returned?
    ensures message in StateOf(hasResult, run).requests[r].callbacks <==> Registered(hasResult, run, r, message)
  {
    hide Apply, Enabled, RegisteredNow;
    var s, e := StateOf(hasResult, run.before), run.event;
    if Happens(hasResult, run) {
      RequestsCome(s, e);
      if r < |s.requests| {
        RegisterStep(s, e, r, message);
        CallbacksAreRegistered(hasResult, run.before, r, message);
      } else {
        NotRegisteredYet(hasResult, run.before, r, message);
        NewRegistersNothing(s, e, r, message);
      }
    } else {
      CallbacksAreRegistered(hasResult, run.before, r, message);
    }
  }

  lemma NewRegistersNothing(s: State, e: Event, r: nat, message: string)
    requires Enabled(s, e) && e.Arrive?
    ensures !RegisteredNow(s, e, r, message, false)
  {
  }

  /** A result goes to the lock if and only if its stream ID belongs to a request still being served. */
  lemma ResultReachesLockIff(hasResult: bool, run: Run<Event>, d: nat, sid: string)
    requires Enabled(StateOf(hasResult, run), Deliver(d, sid))
    ensures var s := StateOf(hasResult, run);
            Apply(s, Deliver(d, sid)).deliveries ==
            if sid in s.pending && Active(s.requests[s.pending[sid]].phase) then s.deliveries[d := AtLock(s.pending[sid])]
            else s.deliveries
  {
    InvHolds(hasResult, run);
    var s := StateOf(hasResult, run);
    assert sid in s.pending ==> RequestOk(s.requests[s.pending[sid]]) && s.requests[s.pending[sid]].reserved;
    hide StateOf, RequestsOk, DeliveriesOk, RequestEnabled, ApplyRequest;
  }

  /** Under the read side its callback runs if and only if the request is still being served and has registered a
      callback for the message; otherwise the result is dropped. */
  lemma CallbackRunsIff(hasResult: bool, run: Run<Event>, d: nat, message: string)
    requires Enabled(StateOf(hasResult, run), EnterRead(d, message))
    ensures var s := StateOf(hasResult, run);
            var r := s.deliveries[d].request;
            Apply(s, EnterRead(d, message)).deliveries[d] ==
            if Active(s.requests[r].phase) && Registered(hasResult, run, r, message) then Running(r, message) else Leaving(r)
  {
    InvHolds(hasResult, run);
    var s := StateOf(hasResult, run);
    var r := s.deliveries[d].request;
    assert RequestOk(s.requests[r]) && (s.requests[r].reserved ==> s.requests[r].sid in s.pending && s.pending[s.requests[r].sid] == r);
    if !s.requests[r].phase.Returned? {
      CallbacksAreRegistered(hasResult, run, r, message);
    }
    hide StateOf, Registered, RequestsOk, PendingOk, DeliveriesOk, RequestEnabled, ApplyRequest;
  }

  /** A delivery whose callback ended, or that is cancelled, leaves the read side. */
  lemma DeliveryLeaves(s: State, d: nat, remove: bool)
    requires d in s.deliveries && s.deliveries[d].request < |s.requests|
    ensures var r := s.deliveries[d].request;
            && (s.deliveries[d].Running? ==>
                  && Enabled(s, CallbackDone(d, remove)) && Enabled(s, CancelDelivery(d))
                  && Apply(s, CallbackDone(d, remove)).deliveries == s.deliveries[d := Leaving(r)]
                  && Apply(s, CancelDelivery(d)).deliveries == s.deliveries[d := Leaving(r)])
            && (s.deliveries[d].Leaving? ==>
                  Enabled(s, LeaveRead(d)) && Apply(s, LeaveRead(d)) == s.(deliveries := s.deliveries - {d}))
            && (s.deliveries[d].AtLock? ==>
                  Enabled(s, CancelDelivery(d)) && Apply(s, CancelDelivery(d)) == s.(deliveries := s.deliveries - {d}))
  {
    hide RequestEnabled, ApplyRequest;
  }

  // ---------------------------------------------------------------------------
  // The source's endpoint consumer
  // ---------------------------------------------------------------------------

  /** The consumer's pending map, its requests and the deliveries suspended in it.  Each method is the
      code between two suspension points. */
  class SourceConsumer {
    const hasResult: bool
    var pending: map<string, nat>
    var requests: seq<Request>
    var deliveries: map<nat, Pc>

    constructor (hasResult: bool)
      ensures this.hasResult == hasResult && View() == Initial(hasResult)
    {
      this.hasResult := hasResult;
      pending, requests, deliveries := map[], [], map[];
    }

    function View(): State
      reads this
    {
      State(hasResult, pending, requests, deliveries)
    }

    /** The outer `finally`. */
    method ReleaseRequest(r: nat)
      requires r < |requests|
      modifies this
      ensures View() == Release(old(View()), r)
    {
      var reserved, sid := requests[r].reserved, requests[r].sid;
      requests := requests[r := requests[r].(closed := true, callbacks := {})];
      if reserved {
        pending := pending - {sid};
      }
      requests := requests[r := requests[r].(phase := Returned, reserved := false)];
    }

    /** The operation ended: refuse late results, then start the finalization task. */
    method BeginFinalization(r: nat)
      requires r < |requests|
      modifies this`requests
      ensures View() == With(old(View()), r, Close(old(requests[r])))
    {
      requests := requests[r := requests[r].(closed := true)];
      requests := requests[r := requests[r].(phase := Finalizing, final := WantWrite)];
    }

    /** `begin_request` returned: reserve the ID, which fails when it is taken. */
    method FinishBegin(r: nat, ok: bool)
      requires Enabled(View(), BeginDone(r, ok))
      modifies this
      ensures View() == Apply(old(View()), BeginDone(r, ok))
    {
      if !ok {
        ReleaseRequest(r);
        return;
      }
      var sid := requests[r].sid;
      if sid in pending {
        requests := requests[r := requests[r].(phase := Rejecting)];
      } else {
        pending := pending[sid := r];
        requests := requests[r := requests[r].(phase := Reading, reserved := true)];
      }
    }

    /** `consume_message` returned, or raised; after the last message the input is over. */
    method FinishMessage(r: nat, ok: bool, last: bool)
      requires Enabled(View(), MessageDone(r, ok, last))
      modifies this`requests
      ensures View() == Apply(old(View()), MessageDone(r, ok, last))
    {
      if !ok {
        BeginFinalization(r);
      } else if !last {
        requests := requests[r := requests[r].(phase := Reading)];
      } else {
        requests := requests[r := requests[r].(eof := true)];
        if hasResult {
          requests := requests[r := requests[r].(phase := AwaitingResult)];
        } else {
          BeginFinalization(r);
        }
      }
    }

    /** The handler, or a callback that kept the result context, registers a result callback. */
    method SetResultCallback(r: nat, message: string)
      requires Enabled(View(), SetCallback(r, message))
      modifies this`requests
      ensures View() == Apply(old(View()), SetCallback(r, message))
    {
      requests := requests[r := requests[r].(callbacks := requests[r].callbacks + {message})];
    }

    /** The RPC task is cancelled where it stands.  In the finalization loop that only tells it to look
        whether the finalization is done. */
    method CancelRequest(r: nat)
      requires Enabled(View(), Cancel(r))
      modifies this
      ensures View() == Apply(old(View()), Cancel(r))
    {
      var phase := requests[r].phase;
      if phase.Beginning? || phase.Rejecting? {
        ReleaseRequest(r);
      } else if phase.Finalizing? {
        if requests[r].final.Finished? {
          ReleaseRequest(r);
        }
      } else {
        BeginFinalization(r);
      }
    }

    /** The finalization has the write side: no callback is inside and none will enter. */
    method EnterWriteSide(r: nat)
      requires Enabled(View(), EnterWrite(r))
      modifies this`requests
      ensures View() == Apply(old(View()), EnterWrite(r))
    {
      requests := requests[r := requests[r].(waiting := false, writer := true)];
      requests := requests[r := requests[r].(final := Ending)];
    }

    /** The checks before the lock. */
    method ConsumeResult(d: nat, sid: string)
      requires Enabled(View(), Deliver(d, sid))
      modifies this`deliveries
      ensures View() == Apply(old(View()), Deliver(d, sid))
    {
      if sid in pending {
        var r := pending[sid];
        if !requests[r].closed {
          deliveries := deliveries[d := AtLock(r)];
        }
      }
    }

    /** The checks under the read side, up to the callback. */
    method EnterReadSide(d: nat, message: string)
      requires Enabled(View(), EnterRead(d, message))
      modifies this`deliveries
      ensures View() == Apply(old(View()), EnterRead(d, message))
    {
      var r := deliveries[d].request;
      var sid := requests[r].sid;
      deliveries := deliveries[d := Leaving(r)];
      if sid in pending && pending[sid] == r && !requests[r].closed {
        if message in requests[r].callbacks {
          deliveries := deliveries[d := Running(r, message)];
        }
      }
    }

    /** The callback returned; it goes when it said so. */
    method FinishCallback(d: nat, remove: bool)
      requires Enabled(View(), CallbackDone(d, remove))
      modifies this
      ensures View() == Apply(old(View()), CallbackDone(d, remove))
    {
      var r, message := deliveries[d].request, deliveries[d].message;
      if remove {
        requests := requests[r := requests[r].(callbacks := requests[r].callbacks - {message})];
      }
      deliveries := deliveries[d := Leaving(r)];
    }
  }
}
