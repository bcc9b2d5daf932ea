/** Streaming gRPC sinks: one RPC per stream ID, opened by the first `consume` for the ID, shared by
    the ones that follow, and ended by a completer task under the session's write lock.

    The task that opens a session is not cancelled while it opens it. */
module GrpcSink {
  import opened Runs

  datatype Kind = ClientStreaming | BidiStreaming

  /** Where the task that owns the session's life is: first the creating `consume`, then the completer. */
  datatype Phase =
    | Beginning                    // in `begin_request`
    | Opening                      // in the client call
    | FailedEnding                 // in `end_request` after the call failed to open
    | Serving                      // waiting for `done`, or for the receive loop
    | Transport                    // client streaming: waiting for the server's response
    | WantWrite(failed: bool)      // about to ask for the write lock
    | Queued(failed: bool)         // waiting for the write lock
    | Responding                   // client streaming: in `handle_response`
    | Ending                       // in `end_request`
    | Unlocking                    // `end_request` is over, the lock is still held
    | Gone                         // the reservation was dropped

  /** A pending cell with its session.  The session's lock is writer-preferring: `waiting` says that the
      completer has asked for the write side, `writer` that it holds it; the calls that consume or
      leave hold the read side. */
  datatype Cell = Cell(
    sid: string,
    phase: Phase,
    ready: bool,
    closing: bool,
    error: bool,
    writer: bool,
    waiting: bool,
    finished: bool,
    done: bool,
    responding: bool,
    received: bool)

  /** Where one call of `consume` is suspended. */
  datatype Pc =
    | Creating(cell: nat)
    | WaitReady(cell: nat)
    | AtLock(cell: nat)
    | Consuming(cell: nat)
    | Leaving(cell: nat)

  datatype State = State(kind: Kind, pending: map<string, nat>, cells: seq<Cell>, tasks: map<nat, Pc>)

  function Initial(kind: Kind): State {
    State(kind, map[], [], map[])
  }

  datatype Event =
    | Consume(task: nat, sid: string)
    | WakeFollower(task: nat)
    | BeginDone(task: nat, ok: bool)
    | OpenDone(task: nat, ok: bool)
    | FailedEndDone(task: nat)
    | EnterRead(task: nat)
    | MessageDone(task: nat, failed: bool)
    | LeaveRead(task: nat)
    | CancelTask(task: nat)
    | SignalDone(cell: nat)
    | CompleterWake(cell: nat, failed: bool)
    | TransportDone(cell: nat, ok: bool)
    | ResponseStart(cell: nat)
    | ResponseDone(cell: nat, ok: bool)
    | ReceiveEnd(cell: nat)
    | ReceiveJoined(cell: nat)
    | QueueWrite(cell: nat)
    | EnterWrite(cell: nat)
    | EndDone(cell: nat)
    | Unlock(cell: nat)

  predicate IsTaskEvent(e: Event) {
    e.Consume? || e.WakeFollower? || e.BeginDone? || e.OpenDone? || e.FailedEndDone? || e.EnterRead? || e.MessageDone?
    || e.LeaveRead? || e.CancelTask?
  }

  predicate TaskEnabled(s: State, e: Event)
    requires IsTaskEvent(e)
  {
    if e.Consume? then e.task !in s.tasks && (e.sid in s.pending ==> s.pending[e.sid] < |s.cells|)
    else
      e.task in s.tasks && s.tasks[e.task].cell < |s.cells| &&
      var pc := s.tasks[e.task];
      var cell := s.cells[pc.cell];
      match e
      case WakeFollower(_) => pc.WaitReady? && cell.ready
      case BeginDone(_, _) => pc.Creating? && cell.phase.Beginning?
      case OpenDone(_, _) => pc.Creating? && cell.phase.Opening?
      case FailedEndDone(_) => pc.Creating? && cell.phase.FailedEnding?
      case EnterRead(_) => pc.AtLock? && !cell.writer && !cell.waiting
      case MessageDone(_, _) => pc.Consuming?
      case LeaveRead(_) => pc.Leaving?
      case CancelTask(_) => pc.WaitReady? || pc.AtLock? || pc.Consuming?
  }

  predicate CellEnabled(s: State, e: Event)
    requires !IsTaskEvent(e)
  {
    e.cell < |s.cells| &&
    var cell := s.cells[e.cell];
    match e
    case SignalDone(_) => cell.ready && !cell.error
    case CompleterWake(_, failed) => s.kind.ClientStreaming? && cell.phase.Serving? && (failed || cell.done)
    case TransportDone(_, _) => cell.phase.Transport?
    case ResponseStart(_) => s.kind.BidiStreaming? && cell.phase.Serving? && !cell.responding && !cell.received
    case ResponseDone(_, _) => (s.kind.BidiStreaming? && cell.responding) || cell.phase.Responding?
    case ReceiveEnd(_) => s.kind.BidiStreaming? && cell.phase.Serving? && !cell.responding && !cell.received
    case ReceiveJoined(_) => s.kind.BidiStreaming? && cell.phase.Serving? && cell.received
    case QueueWrite(_) => cell.phase.WantWrite?
    case EnterWrite(_) => cell.phase.Queued? && !cell.writer && !Read(s, e.cell)
    case EndDone(_) => cell.phase.Ending?
    case Unlock(_) => cell.phase.Unlocking?
  }

  /** Some call holds the read side of the cell's lock. */
  predicate Read(s: State, c: nat) {
    exists t <- s.tasks :: s.tasks[t] == Consuming(c) || s.tasks[t] == Leaving(c)
  }

  predicate Enabled(s: State, e: Event) {
    if IsTaskEvent(e) then TaskEnabled(s, e) else CellEnabled(s, e)
  }

  function WithCell(s: State, c: nat, cell: Cell): State
    requires c < |s.cells|
  {
    s.(cells := s.cells[c := cell])
  }

  function WithTask(s: State, t: nat, pc: Pc): State {
    s.(tasks := s.tasks[t := pc])
  }

  function WithoutTask(s: State, t: nat): State {
    s.(tasks := s.tasks - {t})
  }

  /** Remove the reservation, unless the entry is another cell's by now. */
  function Drop(s: State, c: nat): State
    requires c < |s.cells|
  {
    var cell := s.cells[c];
    var t := WithCell(s, c, cell.(phase := Gone));
    if cell.sid in s.pending && s.pending[cell.sid] == c then t.(pending := s.pending - {cell.sid}) else t
  }

  /** The check before the lock, for a call that found the cell ready. */
  function Join(s: State, t: nat, c: nat): State
    requires c < |s.cells|
  {
    if s.cells[c].closing || s.cells[c].error then WithoutTask(s, t) else WithTask(s, t, AtLock(c))
  }

  function NewCell(sid: string): Cell {
    Cell(sid, Beginning, false, false, false, false, false, false, false, false, false)
  }

  function ApplyTask(s: State, e: Event): State
    requires IsTaskEvent(e) && TaskEnabled(s, e)
  {
    if e.Consume? then
      if e.sid !in s.pending then
        WithTask(s.(cells := s.cells + [NewCell(e.sid)], pending := s.pending[e.sid := |s.cells|]), e.task, Creating(|s.cells|))
      else if s.cells[s.pending[e.sid]].ready then Join(s, e.task, s.pending[e.sid])
      else WithTask(s, e.task, WaitReady(s.pending[e.sid]))
    else
      var t, c := e.task, s.tasks[e.task].cell;
      var cell := s.cells[c];
      match e
      case WakeFollower(_) => Join(s, t, c)
      case BeginDone(_, ok) =>
        if ok then WithCell(s, c, cell.(phase := Opening))
        else WithoutTask(Drop(WithCell(s, c, cell.(closing := true, error := true, ready := true)), c), t)
      case OpenDone(_, ok) =>
        if ok then WithTask(WithCell(s, c, cell.(phase := Serving, ready := true)), t, AtLock(c))
        else WithCell(s, c, cell.(phase := FailedEnding, closing := true, error := true, ready := true))
      case FailedEndDone(_) => WithoutTask(Drop(s, c), t)
      case EnterRead(_) =>
        if cell.closing || cell.finished then WithTask(s, t, Leaving(c))
        else if cell.sid !in s.pending || s.pending[cell.sid] != c then WithTask(s, t, Leaving(c))
        else WithTask(s, t, Consuming(c))
      case MessageDone(_, failed) =>
        WithTask(WithCell(s, c, cell.(done := cell.done || failed)), t, Leaving(c))
      case LeaveRead(_) => WithoutTask(s, t)
      case CancelTask(_) =>
        if s.tasks[t].Consuming? then WithTask(s, t, Leaving(c)) else WithoutTask(s, t)
  }

  function ApplyCell(s: State, e: Event): State
    requires !IsTaskEvent(e) && CellEnabled(s, e)
  {
    var c := e.cell;
    var cell := s.cells[c];
    match e
    case SignalDone(_) => WithCell(s, c, cell.(done := true))
    case CompleterWake(_, failed) =>
      WithCell(s, c, cell.(closing := true, phase := if failed then WantWrite(true) else Transport))
    case TransportDone(_, ok) => WithCell(s, c, cell.(phase := WantWrite(!ok)))
    case ResponseStart(_) => WithCell(s, c, cell.(responding := true))
    case ResponseDone(_, ok) =>
      if cell.phase.Responding? then WithCell(s, c, cell.(phase := Ending))
      else WithCell(s, c, cell.(responding := false, received := cell.received || !ok))
    case ReceiveEnd(_) => WithCell(s, c, cell.(received := true))
    case ReceiveJoined(_) => WithCell(s, c, cell.(closing := true, phase := WantWrite(true)))
    case QueueWrite(_) => WithCell(s, c, cell.(phase := Queued(cell.phase.failed), waiting := true))
    case EnterWrite(_) =>
      WithCell(s, c, cell.(waiting := false, writer := true, finished := true,
               phase := if s.kind.ClientStreaming? && !cell.phase.failed then Responding else Ending))
    case EndDone(_) => WithCell(s, c, cell.(phase := Unlocking))
    case Unlock(_) => Drop(WithCell(s, c, cell.(writer := false)), c)
  }

  function Apply(s: State, e: Event): State
    requires Enabled(s, e)
  {
    if IsTaskEvent(e) then ApplyTask(s, e) else ApplyCell(s, e)
  }

  // ---------------------------------------------------------------------------
  // Invariant
  // ---------------------------------------------------------------------------

  predicate Creation(phase: Phase) {
    phase.Beginning? || phase.Opening? || phase.FailedEnding?
  }

  /** The completer has not asked for the write side or still waits for the readers to leave. */
  predicate Shared(phase: Phase) {
    phase.Serving? || phase.Transport? || phase.WantWrite? || phase.Queued?
  }

  predicate HoldsWrite(phase: Phase) {
    phase.Responding? || phase.Ending? || phase.Unlocking?
  }

  /** What each phase says about the cell's flags and lock. */
  predicate CellOk(kind: Kind, cell: Cell) {
    && (cell.phase.Beginning? || cell.phase.Opening? ==> !cell.ready && !cell.closing && !cell.error)
    && (cell.phase.Serving? ==> cell.ready && !cell.closing && !cell.error)
    && (!(cell.phase.Beginning? || cell.phase.Opening? || cell.phase.Serving?) ==> cell.ready && cell.closing)
    && (cell.error ==> cell.closing)
    && (cell.writer <==> HoldsWrite(cell.phase))
    && (cell.waiting <==> cell.phase.Queued?)
    && (cell.finished ==> cell.closing)
    && (cell.responding ==> cell.phase.Serving? && !cell.received && kind.BidiStreaming?)
    && (cell.phase.Responding? ==> kind.ClientStreaming?)
  }

  ghost predicate CellsOk(s: State) {
    forall c {:trigger s.cells[c]} :: 0 <= c < |s.cells| ==> CellOk(s.kind, s.cells[c])
  }

  /** The pending map holds exactly the cells that are not gone. */
  ghost predicate PendingOk(s: State) {
    && (forall sid <- s.pending :: s.pending[sid] < |s.cells| && s.cells[s.pending[sid]].sid == sid
                                   && !s.cells[s.pending[sid]].phase.Gone?)
    && (forall c {:trigger s.cells[c]} :: 0 <= c < |s.cells| && !s.cells[c].phase.Gone? ==>
          s.cells[c].sid in s.pending && s.pending[s.cells[c].sid] == c)
  }

  predicate PcOk(phase: Phase, pc: Pc) {
    match pc
    case Creating(_) => Creation(phase)
    case WaitReady(_) => true
    case AtLock(_) => !Creation(phase)
    case Consuming(_) => Shared(phase)
    case Leaving(_) => !Creation(phase) && !HoldsWrite(phase)
  }

  ghost predicate TasksOk(s: State) {
    && (forall t <- s.tasks :: s.tasks[t].cell < |s.cells| && PcOk(s.cells[s.tasks[t].cell].phase, s.tasks[t]))
    && (forall t, u :: t in s.tasks && u in s.tasks && s.tasks[t].Creating? && s.tasks[t] == s.tasks[u] ==> t == u)
  }

  ghost predicate Inv(s: State) {
    CellsOk(s) && PendingOk(s) && TasksOk(s)
  }

  /** Replacing one cell that stays in the pending map. */
  lemma CellStepKeepsInv(s: State, c: nat, cell: Cell)
    requires Inv(s) && c < |s.cells| && CellOk(s.kind, cell) && cell.sid == s.cells[c].sid
    requires !cell.phase.Gone? || s.cells[c].phase.Gone?
    requires cell.phase.Gone? || !s.cells[c].phase.Gone?
    requires forall t <- s.tasks :: s.tasks[t].cell == c ==> PcOk(cell.phase, s.tasks[t])
    ensures Inv(WithCell(s, c, cell))
  {
  }

  /** One call starts at, moves to, or ends at a suspension point after creation. */
  lemma TaskStepKeepsInv(s: State, t: nat, pc: Pc)
    requires Inv(s)
    requires !pc.Creating? && pc.cell < |s.cells| && PcOk(s.cells[pc.cell].phase, pc)
    ensures Inv(WithTask(s, t, pc)) && Inv(WithoutTask(s, t))
  {
  }

  lemma JoinKeepsInv(s: State, t: nat, c: nat)
    requires Inv(s) && c < |s.cells| && s.cells[c].ready
    ensures Inv(Join(s, t, c))
  {
    TaskStepKeepsInv(s, t, WaitReady(c));
    if !s.cells[c].closing {
      TaskStepKeepsInv(s, t, AtLock(c));
    }
  }

  lemma ReserveKeepsInv(s: State, t: nat, sid: string)
    requires Inv(s) && t !in s.tasks && sid !in s.pending
    ensures Inv(Apply(s, Consume(t, sid)))
  {
    var r := Apply(s, Consume(t, sid));
    assert forall c :: 0 <= c < |s.cells| ==> r.cells[c] == s.cells[c];
  }

  /** The owner gives up the reservation; no task is left that needs the session. */
  lemma DropKeepsInv(s: State, c: nat, cell: Cell)
    requires Inv(s) && c < |s.cells| && !s.cells[c].phase.Gone?
    requires cell.sid == s.cells[c].sid && CellOk(s.kind, cell.(phase := Gone))
    requires forall t <- s.tasks :: s.tasks[t].cell == c ==> PcOk(Gone, s.tasks[t])
    ensures Inv(Drop(WithCell(s, c, cell), c))
  {
    var r := Drop(WithCell(s, c, cell), c);
    assert r.pending == s.pending - {cell.sid};
    assert forall k :: 0 <= k < |s.cells| && k != c ==> r.cells[k] == s.cells[k];
  }

  lemma BeginDoneKeepsInv(s: State, t: nat, ok: bool)
    requires Inv(s) && Enabled(s, BeginDone(t, ok))
    ensures Inv(Apply(s, BeginDone(t, ok)))
  {
    var c := s.tasks[t].cell;
    if ok {
      CellStepKeepsInv(s, c, s.cells[c].(phase := Opening));
    } else {
      TaskStepKeepsInv(s, t, WaitReady(c));
      DropKeepsInv(WithoutTask(s, t), c, s.cells[c].(closing := true, error := true, ready := true));
    }
  }

  lemma OpenFailedKeepsInv(s: State, t: nat)
    requires Inv(s) && Enabled(s, OpenDone(t, false))
    ensures Inv(Apply(s, OpenDone(t, false)))
  {
    hide PendingOk;
    var c := s.tasks[t].cell;
    CellStepKeepsInv(s, c, s.cells[c].(phase := FailedEnding, closing := true, error := true, ready := true));
  }

  lemma OpenedKeepsInv(s: State, t: nat)
    requires Inv(s) && Enabled(s, OpenDone(t, true))
    ensures Inv(Apply(s, OpenDone(t, true)))
  {
    hide PendingOk, CellOk, CellsOk;
    var c, u := s.tasks[t].cell, WithoutTask(s, t);
    var serving := s.cells[c].(phase := Serving, ready := true);
    ServeKeepsInv(s, t);
    TaskStepKeepsInv(WithCell(u, c, serving), t, AtLock(c));
    hide Inv;
    assert s.tasks[t := AtLock(c)] == u.tasks[t := AtLock(c)];
  }

  lemma ServeKeepsInv(s: State, t: nat)
    requires Inv(s) && Enabled(s, OpenDone(t, true))
    ensures var c := s.tasks[t].cell;
            Inv(WithCell(WithoutTask(s, t), c, s.cells[c].(phase := Serving, ready := true)))
  {
    hide PendingOk;
    var c := s.tasks[t].cell;
    TaskStepKeepsInv(s, t, WaitReady(c));
    CellStepKeepsInv(WithoutTask(s, t), c, s.cells[c].(phase := Serving, ready := true));
  }

  lemma FailedEndKeepsInv(s: State, t: nat)
    requires Inv(s) && Enabled(s, FailedEndDone(t))
    ensures Inv(Apply(s, FailedEndDone(t)))
  {
    var c, u := s.tasks[t].cell, WithoutTask(s, t);
    TaskStepKeepsInv(s, t, WaitReady(c));
    DropKeepsInv(u, c, s.cells[c]);
    assert WithCell(u, c, s.cells[c]) == u;
  }

  lemma ConsumeKeepsInv(s: State, e: Event)
    requires Inv(s) && Enabled(s, e) && e.Consume?
    ensures Inv(Apply(s, e))
  {
    if e.sid !in s.pending {
      ReserveKeepsInv(s, e.task, e.sid);
    } else if s.cells[s.pending[e.sid]].ready {
      JoinKeepsInv(s, e.task, s.pending[e.sid]);
    } else {
      TaskStepKeepsInv(s, e.task, WaitReady(s.pending[e.sid]));
    }
  }

  lemma MessageDoneKeepsInv(s: State, t: nat, failed: bool)
    requires Inv(s) && Enabled(s, MessageDone(t, failed))
    ensures Inv(Apply(s, MessageDone(t, failed)))
  {
    hide PendingOk;
    var c := s.tasks[t].cell;
    var cell := s.cells[c];
    TaskStepKeepsInv(s, t, Leaving(c));
    CellStepKeepsInv(WithTask(s, t, Leaving(c)), c, cell.(done := cell.done || failed));
  }

  lemma CallStepKeepsInv(s: State, e: Event)
    requires Inv(s) && Enabled(s, e) && IsTaskEvent(e) && !e.BeginDone? && !e.OpenDone? && !e.FailedEndDone?
    ensures Inv(Apply(s, e))
  {
    if e.Consume? {
      ConsumeKeepsInv(s, e);
    } else if e.MessageDone? {
      MessageDoneKeepsInv(s, e.task, e.failed);
    } else {
      hide PendingOk;
      var t, c := e.task, s.tasks[e.task].cell;
      TaskStepKeepsInv(s, t, WaitReady(c));
      match e
      case WakeFollower(_) => JoinKeepsInv(s, t, c);
      case EnterRead(_) =>
        TaskStepKeepsInv(s, t, if (Apply(s, e)).tasks[t].Leaving? then Leaving(c) else Consuming(c));
      case CancelTask(_) =>
        if s.tasks[t].Consuming? {
          TaskStepKeepsInv(s, t, Leaving(c));
        }
      case _ =>
    }
  }

  lemma OwnerCellOk(s: State, e: Event)
    requires Enabled(s, e) && !IsTaskEvent(e) && !e.Unlock? && CellOk(s.kind, s.cells[e.cell])
    ensures e.cell < |Apply(s, e).cells|
    ensures var cell := Apply(s, e).cells[e.cell];
            && Apply(s, e) == WithCell(s, e.cell, cell) && CellOk(s.kind, cell) && cell.sid == s.cells[e.cell].sid
            && (cell.phase.Gone? <==> s.cells[e.cell].phase.Gone?)
  {
    hide Read, ApplyTask, TaskEnabled;
  }

  lemma WriterPcOk(s: State, c: nat, t: nat)
    requires Enabled(s, EnterWrite(c)) && t in s.tasks && s.tasks[t].cell == c && PcOk(s.cells[c].phase, s.tasks[t])
    ensures PcOk(Apply(s, EnterWrite(c)).cells[c].phase, s.tasks[t])
  {
    assert s.tasks[t] != Consuming(c) && s.tasks[t] != Leaving(c);
    hide Read;
  }

  lemma OwnerPhases(s: State, e: Event)
    requires Enabled(s, e) && !IsTaskEvent(e) && !e.Unlock? && !e.EnterWrite?
    ensures e.cell < |Apply(s, e).cells|
    ensures var p, q := s.cells[e.cell].phase, Apply(s, e).cells[e.cell].phase;
            (Creation(q) <==> Creation(p)) && (Shared(p) ==> Shared(q)) && (HoldsWrite(q) ==> HoldsWrite(p))
  {
    hide ApplyTask, TaskEnabled, Read;
    match e
    case SignalDone(_) =>
    case CompleterWake(_, _) =>
    case TransportDone(_, _) =>
    case QueueWrite(_) =>
    case EndDone(_) =>
    case ReceiveJoined(_) =>
    case _ =>
  }

  lemma OwnerPcOk(s: State, e: Event, t: nat)
    requires Enabled(s, e) && !IsTaskEvent(e) && !e.Unlock?
    requires t in s.tasks && s.tasks[t].cell == e.cell && PcOk(s.cells[e.cell].phase, s.tasks[t])
    ensures e.cell < |Apply(s, e).cells| && PcOk(Apply(s, e).cells[e.cell].phase, s.tasks[t])
  {
    if e.EnterWrite? {
      WriterPcOk(s, e.cell, t);
    } else {
      OwnerPhases(s, e);
      hide Apply, Enabled, Creation, Shared, HoldsWrite;
    }
  }

  lemma OwnerStepKeepsInv(s: State, e: Event)
    requires Inv(s) && Enabled(s, e) && !IsTaskEvent(e) && !e.Unlock?
    ensures Inv(Apply(s, e))
  {
    assert e.cell < |s.cells| && CellOk(s.kind, s.cells[e.cell]);
    OwnerCellOk(s, e);
    forall t | t in s.tasks && s.tasks[t].cell == e.cell ensures PcOk(Apply(s, e).cells[e.cell].phase, s.tasks[t]) {
      OwnerPcOk(s, e, t);
    }
    hide Inv, Enabled, Apply, CellOk, PcOk;
    CellStepKeepsInv(s, e.cell, Apply(s, e).cells[e.cell]);
  }

  lemma UnlockKeepsInv(s: State, c: nat)
    requires Inv(s) && Enabled(s, Unlock(c))
    ensures Inv(Apply(s, Unlock(c)))
  {
    DropKeepsInv(s, c, s.cells[c].(writer := false));
  }

  lemma {:induction false} StepKeepsInv(s: State, e: Event)
    requires Inv(s) && Enabled(s, e)
    ensures Inv(Apply(s, e)) && Apply(s, e).kind == s.kind
  {
    hide Inv;
    match e
    case BeginDone(t, ok) => BeginDoneKeepsInv(s, t, ok);
    case OpenDone(t, ok) =>
      if ok {
        OpenedKeepsInv(s, t);
      } else {
        OpenFailedKeepsInv(s, t);
      }
    case FailedEndDone(t) => FailedEndKeepsInv(s, t);
    case Unlock(c) => UnlockKeepsInv(s, c);
    case _ =>
      if IsTaskEvent(e) {
        CallStepKeepsInv(s, e);
      } else {
        OwnerStepKeepsInv(s, e);
      }
  }

  // ---------------------------------------------------------------------------
  // Runs and what the handler sees of one stream ID
  // ---------------------------------------------------------------------------

  /** The state after a run.  An event whose guard does not hold cannot happen and changes nothing. */
  ghost function StateOf(kind: Kind, run: Run<Event>): State {
    if run.Start? then Initial(kind)
    else
      var s := StateOf(kind, run.before);
      if Enabled(s, run.event) then Apply(s, run.event) else s
  }

  lemma InitialInv(kind: Kind)
    ensures Inv(Initial(kind))
  {
  }

  lemma {:induction false} InvHolds(kind: Kind, run: Run<Event>)
    ensures Inv(StateOf(kind, run)) && StateOf(kind, run).kind == kind
  {
    hide Apply, Enabled, Inv;
    if run.Start? {
      InitialInv(kind);
    } else {
      InvHolds(kind, run.before);
      if Enabled(StateOf(kind, run.before), run.event) {
        StepKeepsInv(StateOf(kind, run.before), run.event);
      }
    }
  }

  /** Starts and ends of the handler's callbacks, and the outcome of opening the call. */
  datatype Mark =
    | BeginStart
    | BeginFailed
    | BeginOk
    | OpenFailed
    | OpenOk
    | MessageStart(task: nat)
    | MessageEnd(task: nat)
    | ResponseIn
    | ResponseOut
    | EndStart
    | EndOver

  /** The cell an event is about. */
  function CellOf(s: State, e: Event): nat
    requires Enabled(s, e) && !e.Consume?
  {
    if IsTaskEvent(e) then s.tasks[e.task].cell else e.cell
  }

  function MarksNow(s: State, e: Event): seq<Mark>
    requires Enabled(s, e) && !e.Consume?
  {
    match e
    case BeginDone(_, ok) => [if ok then BeginOk else BeginFailed]
    case OpenDone(_, ok) => if ok then [OpenOk] else [OpenFailed, EndStart]
    case FailedEndDone(_) => [EndOver]
    case EnterRead(t) => if Apply(s, e).tasks[t].Consuming? then [MessageStart(t)] else []
    case MessageDone(t, _) => [MessageEnd(t)]
    case CancelTask(t) => if s.tasks[t].Consuming? then [MessageEnd(t)] else []
    case ResponseStart(_) => [ResponseIn]
    case ResponseDone(c, _) => if s.cells[c].phase.Responding? then [ResponseOut, EndStart] else [ResponseOut]
    case EnterWrite(c) => [if Apply(s, e).cells[c].phase.Responding? then ResponseIn else EndStart]
    case EndDone(_) => [EndOver]
    case _ => []
  }

  /** What the handler sees of stream ID `sid` in this step. */
  function Seen(s: State, e: Event, sid: string): seq<Mark> {
    if !Enabled(s, e) then []
    else if e.Consume? then (if e.sid == sid && sid !in s.pending then [BeginStart] else [])
    else if s.cells[CellOf(s, e)].sid == sid then MarksNow(s, e)
    else []
  }

  ghost function History(kind: Kind, run: Run<Event>, sid: string): seq<Mark> {
    if run.Start? then [] else History(kind, run.before, sid) + Seen(StateOf(kind, run.before), run.event, sid)
  }

  // ---------------------------------------------------------------------------
  // The reference: one session after another
  // ---------------------------------------------------------------------------

  datatype Session =
    | Idle
    | Begun
    | Admitted
    | Refused
    | Open(messages: set<nat>, responding: bool, answered: bool)
    | Closing
    | Broken

  /** One callback boundary of the reference; `Broken` when it is out of place. */
  function Next(kind: Kind, q: Session, m: Mark): Session {
    match (q, m)
    case (Idle, BeginStart) => Begun
    case (Begun, BeginFailed) => Idle
    case (Begun, BeginOk) => Admitted
    case (Admitted, OpenFailed) => Refused
    case (Admitted, OpenOk) => Open({}, false, false)
    case (Refused, EndStart) => Closing
    case (Open(ms, responding, answered), MessageStart(t)) =>
      if t in ms || (kind.ClientStreaming? && (responding || answered)) then Broken else Open(ms + {t}, responding, answered)
    case (Open(ms, responding, answered), MessageEnd(t)) =>
      if t in ms then Open(ms - {t}, responding, answered) else Broken
    case (Open(ms, responding, answered), ResponseIn) =>
      if responding || (kind.ClientStreaming? && (ms != {} || answered)) then Broken else Open(ms, true, answered)
    case (Open(ms, responding, answered), ResponseOut) =>
      if responding then Open(ms, false, kind.ClientStreaming?) else Broken
    case (Open(ms, responding, answered), EndStart) => if ms == {} && !responding then Closing else Broken
    case (Closing, EndOver) => Idle
    case _ => Broken
  }

  function After(kind: Kind, q: Session, ms: seq<Mark>): Session {
    if ms == [] then q else Next(kind, After(kind, q, ms[..|ms| - 1]), ms[|ms| - 1])
  }

  lemma {:induction false} AfterConcat(kind: Kind, q: Session, xs: seq<Mark>, ys: seq<Mark>)
    ensures After(kind, q, xs + ys) == After(kind, After(kind, q, xs), ys)
  {
    if ys == [] {
      assert xs + ys == xs;
    } else {
      AfterConcat(kind, q, xs, ys[..|ys| - 1]);
      assert (xs + ys)[..|xs + ys| - 1] == xs + ys[..|ys| - 1];
    }
  }

  ghost function Messages(s: State, c: nat): set<nat> {
    set t | t in s.tasks && s.tasks[t] == Consuming(c)
  }

  /** Where the reference stands when a cell is in this phase. */
  function CellStage(cell: Cell, messages: set<nat>): Session {
    match cell.phase
    case Beginning => Begun
    case Opening => Admitted
    case FailedEnding => Closing
    case Responding => Open({}, true, false)
    case Ending => Closing
    case Unlocking => Idle
    case Gone => Idle
    case _ => Open(messages, cell.responding, false)
  }

  ghost function Stage(s: State, sid: string): Session {
    if sid !in s.pending || s.pending[sid] >= |s.cells| then Idle
    else CellStage(s.cells[s.pending[sid]], Messages(s, s.pending[sid]))
  }

  lemma AfterFew(kind: Kind, q: Session, a: Mark, b: Mark)
    ensures After(kind, q, []) == q
    ensures After(kind, q, [a]) == Next(kind, q, a)
    ensures After(kind, q, [a, b]) == Next(kind, Next(kind, q, a), b)
  {
    assert [a][..0] == [] && [a, b][..1] == [a];
  }

  predicate SpeaksToHandler(e: Event) {
    e.ResponseStart? || e.ResponseDone? || e.EnterWrite? || e.EndDone?
  }

  lemma {:induction false} SilentOwner(s: State, e: Event)
    requires Enabled(s, e) && !IsTaskEvent(e) && !e.Unlock? && CellOk(s.kind, s.cells[e.cell]) && !SpeaksToHandler(e)
    ensures var c, ms := e.cell, Messages(s, e.cell);
            MarksNow(s, e) == [] && CellStage(Apply(s, e).cells[c], ms) == CellStage(s.cells[c], ms)
  {
    hide Read;
  }

  /** The step of a session's owner, seen as a step of the reference. */
  lemma {:induction false} OwnerMarks(s: State, e: Event)
    requires Enabled(s, e) && !IsTaskEvent(e) && !e.Unlock? && CellOk(s.kind, s.cells[e.cell])
    requires e.EnterWrite? ==> Messages(s, e.cell) == {}
    ensures var c := e.cell;
            After(s.kind, CellStage(s.cells[c], Messages(s, c)), MarksNow(s, e)) == CellStage(Apply(s, e).cells[c], Messages(s, c))
  {
    hide After, Read;
    var q, ms := CellStage(s.cells[e.cell], Messages(s, e.cell)), MarksNow(s, e);
    if SpeaksToHandler(e) {
      AfterFew(s.kind, q, ms[0], EndStart);
      assert ms == [ms[0]] || ms == [ms[0], EndStart];
    } else {
      hide CellStage, MarksNow, Apply, Enabled;
      SilentOwner(s, e);
      AfterFew(s.kind, q, EndStart, EndStart);
    }
  }

  lemma {:induction false} OwnerStepRefines(s: State, e: Event, sid: string)
    requires Inv(s) && Enabled(s, e) && !IsTaskEvent(e) && !e.Unlock?
    ensures After(s.kind, Stage(s, sid), Seen(s, e, sid)) == Stage(Apply(s, e), sid)
  {
    var t, c := Apply(s, e), e.cell;
    assert forall k :: Messages(t, k) == Messages(s, k);
    assert e.EnterWrite? ==> Messages(s, c) == {};
    OwnerMarks(s, e);
    if s.cells[c].sid == sid && s.cells[c].phase.Gone? {
      assert e.SignalDone?;
    }
  }

  lemma {:induction false} UnlockRefines(s: State, c: nat, sid: string)
    requires Inv(s) && Enabled(s, Unlock(c))
    ensures After(s.kind, Stage(s, sid), Seen(s, Unlock(c), sid)) == Stage(Apply(s, Unlock(c)), sid)
  {
    var t := Apply(s, Unlock(c));
    assert forall k :: Messages(t, k) == Messages(s, k);
    assert t.pending == s.pending - {s.cells[c].sid};
  }

  /** What one cell's step does to another stream ID: nothing. */
  lemma {:induction false} OtherIdUntouched(s: State, t: State, c: nat, sid: string)
    requires Inv(s) && Inv(t) && c < |s.cells| == |t.cells| && s.cells[c].sid != sid && t.cells[c].sid == s.cells[c].sid
    requires forall k :: 0 <= k < |s.cells| && k != c ==> s.cells[k] == t.cells[k] && Messages(t, k) == Messages(s, k)
    requires sid in s.pending <==> sid in t.pending
    requires sid in s.pending ==> s.pending[sid] == t.pending[sid]
    ensures Stage(t, sid) == Stage(s, sid)
  {
  }

  lemma {:induction false} CreatorMarks(s: State, e: Event)
    requires Enabled(s, e) && (e.BeginDone? || e.OpenDone? || e.FailedEndDone?)
    requires CellOk(s.kind, s.cells[s.tasks[e.task].cell])
    ensures var c := s.tasks[e.task].cell;
            After(s.kind, CellStage(s.cells[c], {}), MarksNow(s, e)) == CellStage(Apply(s, e).cells[c], {})
  {
    hide After;
    var c, ms := s.tasks[e.task].cell, MarksNow(s, e);
    AfterFew(s.kind, CellStage(s.cells[c], {}), ms[0], EndStart);
    assert ms == [ms[0]] || ms == [ms[0], EndStart];
  }

  /** What the creating call's step changes outside its cell: nothing but its own reservation. */
  lemma {:induction false} CreatorShape(s: State, e: Event)
    requires PendingOk(s) && TasksOk(s) && Enabled(s, e) && (e.BeginDone? || e.OpenDone? || e.FailedEndDone?)
    ensures var t, c := Apply(s, e), s.tasks[e.task].cell;
            && |t.cells| == |s.cells| && t.cells[c].sid == s.cells[c].sid
            && (forall k :: 0 <= k < |s.cells| && k != c ==> s.cells[k] == t.cells[k])
            && t.pending == (if t.cells[c].phase.Gone? then s.pending - {s.cells[c].sid} else s.pending)
            && s.cells[c].sid in s.pending && s.pending[s.cells[c].sid] == c
  {
    hide ApplyCell, CellEnabled, CellOk;
    var c := s.tasks[e.task].cell;
    assert Creation(s.cells[c].phase);
  }

  lemma {:induction false} CreatorMessages(s: State, e: Event)
    requires TasksOk(s) && Enabled(s, e) && (e.BeginDone? || e.OpenDone? || e.FailedEndDone?)
    ensures var t := Apply(s, e);
            (forall k :: Messages(t, k) == Messages(s, k)) && Messages(s, s.tasks[e.task].cell) == {}
  {
    var t := Apply(s, e);
    assert t.tasks == s.tasks || t.tasks == s.tasks - {e.task} || t.tasks == s.tasks[e.task := AtLock(s.tasks[e.task].cell)];
  }

  /** A cell's own ID, when the cell's step is a step of the reference. */
  lemma OwnIdStep(s: State, t: State, c: nat, ms: seq<Mark>)
    requires c < |s.cells| == |t.cells| && s.cells[c].sid in s.pending && s.pending[s.cells[c].sid] == c
    requires t.pending == if t.cells[c].phase.Gone? then s.pending - {s.cells[c].sid} else s.pending
    requires After(s.kind, CellStage(s.cells[c], Messages(s, c)), ms) == CellStage(t.cells[c], Messages(t, c))
    ensures After(s.kind, Stage(s, s.cells[c].sid), ms) == Stage(t, s.cells[c].sid)
  {
    hide After, Messages;
  }

  lemma SeenOfCell(s: State, e: Event, sid: string)
    requires Enabled(s, e) && !e.Consume?
    ensures Seen(s, e, sid) == if s.cells[CellOf(s, e)].sid == sid then MarksNow(s, e) else []
  {
  }

  /** The creating call's steps. */
  lemma {:induction false} CreatorStepRefines(s: State, e: Event, sid: string)
    requires Inv(s) && Enabled(s, e) && Inv(Apply(s, e)) && (e.BeginDone? || e.OpenDone? || e.FailedEndDone?)
    ensures After(s.kind, Stage(s, sid), Seen(s, e, sid)) == Stage(Apply(s, e), sid)
  {
    var c := s.tasks[e.task].cell;
    assert CellOk(s.kind, s.cells[c]);
    hide After, MarksNow, CellOk, CellsOk, PendingOk, TasksOk, Messages, Apply, Stage, Seen, CellStage;
    SeenOfCell(s, e, sid);
    CreatorShape(s, e);
    CreatorMessages(s, e);
    if s.cells[c].sid != sid {
      AfterFew(s.kind, Stage(s, sid), EndStart, EndStart);
      OtherIdUntouched(s, Apply(s, e), c, sid);
    } else {
      CreatorMarks(s, e);
      OwnIdStep(s, Apply(s, e), c, MarksNow(s, e));
    }
  }

  predicate IsCallStep(e: Event) {
    e.WakeFollower? || e.EnterRead? || e.MessageDone? || e.LeaveRead? || e.CancelTask?
  }

  /** A step of another call leaves every cell's phase, and starts or ends at most one message. */
  lemma {:induction false} CallShape(s: State, e: Event)
    requires Enabled(s, e) && IsCallStep(e)
    ensures var t, c := Apply(s, e), s.tasks[e.task].cell;
            && |t.cells| == |s.cells| && t.pending == s.pending
            && (forall k :: 0 <= k < |s.cells| ==>
                  t.cells[k].phase == s.cells[k].phase && t.cells[k].responding == s.cells[k].responding)
            && (forall k :: k != c ==> Messages(t, k) == Messages(s, k))
  {
    var t, c := Apply(s, e), s.tasks[e.task].cell;
    assert forall k :: k != c ==> Messages(t, k) == Messages(s, k);
  }

  lemma {:induction false} CallMessages(s: State, e: Event)
    requires Enabled(s, e) && IsCallStep(e)
    ensures var t, c := Apply(s, e), s.tasks[e.task].cell;
            && (s.tasks[e.task].Consuming? <==> e.task in Messages(s, c))
            && (MarksNow(s, e) == [] ==> Messages(t, c) == Messages(s, c))
            && (MarksNow(s, e) == [MessageStart(e.task)] ==> Messages(t, c) == Messages(s, c) + {e.task})
            && (MarksNow(s, e) == [MessageEnd(e.task)] ==> Messages(t, c) == Messages(s, c) - {e.task})
            && (MarksNow(s, e) == [] || MarksNow(s, e) == [MessageStart(e.task)] || MarksNow(s, e) == [MessageEnd(e.task)])
  {
  }

  /** A message starts and ends only while the session is shared. */
  lemma {:induction false} MessagePlace(s: State, e: Event)
    requires CellsOk(s) && PendingOk(s) && TasksOk(s) && Enabled(s, e) && IsCallStep(e) && MarksNow(s, e) != []
    ensures var c := s.tasks[e.task].cell;
            && Shared(s.cells[c].phase) && (s.kind.ClientStreaming? ==> !s.cells[c].responding)
            && (MarksNow(s, e) == [MessageStart(e.task)] ==> !s.tasks[e.task].Consuming?)
            && (MarksNow(s, e) == [MessageEnd(e.task)] ==> s.tasks[e.task].Consuming?)
  {
  }

  lemma {:induction false} CallMarks(s: State, e: Event)
    requires Inv(s) && Enabled(s, e) && IsCallStep(e)
    ensures var t, c, ms := Apply(s, e), s.tasks[e.task].cell, MarksNow(s, e);
            After(s.kind, CellStage(s.cells[c], Messages(s, c)), ms) == CellStage(t.cells[c], Messages(t, c))
            && (ms != [] ==> Shared(s.cells[c].phase))
  {
    hide After, MarksNow, Apply, Messages, CellsOk, PendingOk, TasksOk;
    var c, ms := s.tasks[e.task].cell, MarksNow(s, e);
    CallMessages(s, e);
    CallShape(s, e);
    AfterFew(s.kind, CellStage(s.cells[c], Messages(s, c)), if ms == [] then EndStart else ms[0], EndStart);
    if ms != [] {
      MessagePlace(s, e);
    }
  }

  /** The other calls' steps. */
  lemma {:induction false} CallStepRefines(s: State, e: Event, sid: string)
    requires Inv(s) && Enabled(s, e) && IsCallStep(e)
    ensures After(s.kind, Stage(s, sid), Seen(s, e, sid)) == Stage(Apply(s, e), sid)
  {
    CallShape(s, e);
    CallMarks(s, e);
    hide After, MarksNow, CellOk, CellsOk, Messages, TasksOk, ApplyTask;
    AfterFew(s.kind, Stage(s, sid), EndStart, EndStart);
    var c := s.tasks[e.task].cell;
    if sid in s.pending && s.cells[c].sid == sid && s.pending[sid] != c {
      assert s.cells[c].phase.Gone?;
    }
  }

  lemma {:induction false} ConsumeRefines(s: State, e: Event, sid: string)
    requires Inv(s) && Enabled(s, e) && e.Consume?
    ensures After(s.kind, Stage(s, sid), Seen(s, e, sid)) == Stage(Apply(s, e), sid)
  {
    var t := Apply(s, e);
    AfterFew(s.kind, Stage(s, sid), BeginStart, EndStart);
    assert forall k :: Messages(t, k) == Messages(s, k);
  }

  lemma {:induction false} StepRefines(s: State, e: Event, sid: string)
    requires Inv(s) && Enabled(s, e)
    ensures After(s.kind, Stage(s, sid), Seen(s, e, sid)) == Stage(Apply(s, e), sid)
  {
    hide Inv, Enabled, After, Stage, Seen, Apply;
    StepKeepsInv(s, e);
    if e.Unlock? {
      UnlockRefines(s, e.cell, sid);
    } else if e.Consume? {
      ConsumeRefines(s, e, sid);
    } else if e.BeginDone? || e.OpenDone? || e.FailedEndDone? {
      CreatorStepRefines(s, e, sid);
    } else if IsCallStep(e) {
      CallStepRefines(s, e, sid);
    } else {
      OwnerStepRefines(s, e, sid);
    }
  }

  /** In every interleaving, each stream ID's callbacks follow the reference. */
  lemma {:induction false} HistoryFollowsReference(kind: Kind, run: Run<Event>, sid: string)
    ensures After(kind, Idle, History(kind, run, sid)) == Stage(StateOf(kind, run), sid)
  {
    hide Apply, Enabled, Inv;
    if run.Then? {
      var s, e := StateOf(kind, run.before), run.event;
      HistoryFollowsReference(kind, run.before, sid);
      InvHolds(kind, run.before);
      AfterConcat(kind, Idle, History(kind, run.before, sid), Seen(s, e, sid));
      if Enabled(s, e) {
        StepRefines(s, e, sid);
      } else {
        assert Seen(s, e, sid) == [];
      }
    }
  }

  // ---------------------------------------------------------------------------
  // A history is a sequence of whole sessions
  // ---------------------------------------------------------------------------

  /** Messages started and not ended. */
  function Active(b: seq<Mark>): set<nat> {
    if b == [] then {}
    else
      var rest := Active(b[..|b| - 1]);
      match b[|b| - 1]
      case MessageStart(t) => rest + {t}
      case MessageEnd(t) => rest - {t}
      case _ => rest
  }

  predicate Answering(b: seq<Mark>) {
    b != [] && (b[|b| - 1].ResponseIn? || (!b[|b| - 1].ResponseOut? && Answering(b[..|b| - 1])))
  }

  /** Messages and responses only, each end after its own start.  A client-streaming call has at most one
      response, when no message is active, and nothing after it. */
  predicate Body(kind: Kind, b: seq<Mark>) {
    b == [] ||
    var before := b[..|b| - 1];
    Body(kind, before) &&
    match b[|b| - 1]
    case MessageStart(t) => t !in Active(before) && (kind.ClientStreaming? ==> ResponseIn !in before)
    case MessageEnd(t) => t in Active(before)
    case ResponseIn => !Answering(before) && (kind.ClientStreaming? ==> Active(before) == {} && ResponseIn !in before)
    case ResponseOut => Answering(before)
    case _ => false
  }

  /** One whole session: a begin that failed; or a begin, then an open that failed or a body, then one end. */
  ghost predicate Whole(kind: Kind, h: seq<Mark>) {
    || h == [BeginStart, BeginFailed]
    || h == [BeginStart, BeginOk, OpenFailed, EndStart, EndOver]
    || (|h| >= 5 && h[..3] == [BeginStart, BeginOk, OpenOk] && h[|h| - 2..] == [EndStart, EndOver] &&
        var b := h[3..|h| - 2];
        Body(kind, b) && Active(b) == {} && !Answering(b))
  }

  ghost predicate Sessions(kind: Kind, h: seq<Mark>) {
    h == [] || exists k :: 0 <= k < |h| && Sessions(kind, h[..k]) && Whole(kind, h[k..])
  }

  /** A session cut short where the reference stands at `q`. */
  ghost predicate Partial(kind: Kind, q: Session, h: seq<Mark>) {
    match q
    case Idle => h == []
    case Begun => h == [BeginStart]
    case Admitted => h == [BeginStart, BeginOk]
    case Refused => h == [BeginStart, BeginOk, OpenFailed]
    case Open(messages, responding, answered) =>
      |h| >= 3 && h[..3] == [BeginStart, BeginOk, OpenOk] &&
      var b := h[3..];
      Body(kind, b) && Active(b) == messages && Answering(b) == responding
      && (kind.ClientStreaming? ==> (ResponseIn in b <==> responding || answered))
    case Closing => h != [] && h[|h| - 1] == EndStart && Whole(kind, h + [EndOver])
    case Broken => false
  }

  /** One more callback boundary continues the session, or completes it. */
  lemma {:induction false} PartialStep(kind: Kind, q: Session, h: seq<Mark>, m: Mark)
    requires Partial(kind, q, h) && Next(kind, q, m) != Broken
    ensures Next(kind, q, m) == Idle ==> Whole(kind, h + [m])
    ensures Next(kind, q, m) != Idle ==> Partial(kind, Next(kind, q, m), h + [m])
  {
    var r := h + [m];
    assert r[..|h|] == h;
    if q.Open? {
      if m == EndStart {
        BodyEnds(kind, q, h);
      } else {
        BodyGrows(kind, q, h, m);
      }
    }
  }

  lemma {:induction false} BodyEnds(kind: Kind, q: Session, h: seq<Mark>)
    requires q.Open? && Partial(kind, q, h) && Next(kind, q, EndStart) != Broken
    ensures Partial(kind, Closing, h + [EndStart]) && Next(kind, q, EndStart) == Closing
  {
    var w := h + [EndStart] + [EndOver];
    assert w[..3] == h[..3] && w[3..|w| - 2] == h[3..] && w[|w| - 2..] == [EndStart, EndOver];
  }

  lemma {:induction false} BodyGrows(kind: Kind, q: Session, h: seq<Mark>, m: Mark)
    requires q.Open? && Partial(kind, q, h) && m != EndStart && Next(kind, q, m) != Broken
    ensures Next(kind, q, m).Open? && Partial(kind, Next(kind, q, m), h + [m])
  {
    var r := h + [m];
    var b, c := h[3..], r[3..];
    assert r[..3] == h[..3] && c == b + [m] && c[..|c| - 1] == b && c[|c| - 1] == m;
  }

  lemma NothingYet(kind: Kind)
    ensures After(kind, Idle, []) == Idle && Partial(kind, Idle, []) && Sessions(kind, [])
  {
  }

  /** A history the reference accepts is whole sessions, one after another, and at most one unfinished one. */
  lemma {:induction false} SplitsIntoSessions(kind: Kind, h: seq<Mark>)
    requires After(kind, Idle, h) != Broken
    ensures exists k :: SplitsAt(kind, h, k)
  {
    hide SplitsAt, Next;
    if h == [] {
      NothingYet(kind);
      assert SplitsAt(kind, h, 0) by {
        EmptySplits(kind);
      }
    } else {
      var before, m := h[..|h| - 1], h[|h| - 1];
      BrokenStays(kind, m);
      SplitsIntoSessions(kind, before);
      var k :| SplitsAt(kind, before, k);
      SplitGrows(kind, before, m, k);
      assert h == before + [m];
    }
  }

  /** Whole sessions up to `k`, and from there the session in progress. */
  ghost predicate SplitsAt(kind: Kind, h: seq<Mark>, k: int) {
    0 <= k <= |h| && Sessions(kind, h[..k]) && Partial(kind, After(kind, Idle, h), h[k..])
  }

  lemma EmptySplits(kind: Kind)
    ensures SplitsAt(kind, [], 0)
  {
    NothingYet(kind);
    var none: seq<Mark> := [];
    assert none[..0] == none && none[0..] == none;
  }

  lemma SessionsGrow(kind: Kind, h: seq<Mark>, k: int)
    requires 0 <= k < |h| && Sessions(kind, h[..k]) && Whole(kind, h[k..])
    ensures Sessions(kind, h)
  {
    hide Whole;
  }

  lemma AfterOne(kind: Kind, before: seq<Mark>, m: Mark)
    ensures After(kind, Idle, before + [m]) == Next(kind, After(kind, Idle, before), m)
  {
    assert (before + [m])[..|before|] == before;
    hide Next;
  }

  lemma SplitGrows(kind: Kind, before: seq<Mark>, m: Mark, k: int)
    requires SplitsAt(kind, before, k) && After(kind, Idle, before + [m]) != Broken
    ensures exists j :: SplitsAt(kind, before + [m], j)
  {
    hide Partial, Whole, Next, Sessions, After;
    var h, q := before + [m], After(kind, Idle, before);
    AfterOne(kind, before, m);
    PartialStep(kind, q, before[k..], m);
    assert h[..k] == before[..k] && h[k..] == before[k..] + [m];
    if Next(kind, q, m) == Idle {
      NothingYet(kind);
      SessionsGrow(kind, h, k);
      assert h[..|h|] == h && h[|h|..] == [];
      assert SplitsAt(kind, h, |h|);
    } else {
      assert SplitsAt(kind, h, k);
    }
  }

  lemma BrokenStays(kind: Kind, m: Mark)
    ensures Next(kind, Broken, m) == Broken
  {
  }

  /** Per stream ID the callbacks are whole sessions that do not overlap, then at most one session in
      progress: no message runs during or after an end, each begun session ends exactly once, and the
      next begin comes after the previous end. */
  lemma HistoryIsSessions(kind: Kind, run: Run<Event>, sid: string)
    ensures var h := History(kind, run, sid);
            exists k :: 0 <= k <= |h| && Sessions(kind, h[..k]) && Partial(kind, Stage(StateOf(kind, run), sid), h[k..])
  {
    HistoryFollowsReference(kind, run, sid);
    StageIsSound(StateOf(kind, run), sid);
    hide Stage, StateOf, History, After, Sessions, Partial;
    var h := History(kind, run, sid);
    SplitsIntoSessions(kind, h);
    var k :| SplitsAt(kind, h, k);
  }

  lemma StageIsSound(s: State, sid: string)
    ensures Stage(s, sid) != Broken
  {
  }

  // ---------------------------------------------------------------------------
  // The lock and re-entry
  // ---------------------------------------------------------------------------

  /** Whoever waits for or holds the write side has announced it. */
  lemma WriterImpliesClosing(kind: Kind, run: Run<Event>, c: nat)
    requires c < |StateOf(kind, run).cells|
    ensures var cell := StateOf(kind, run).cells[c]; cell.waiting || cell.writer ==> cell.closing
  {
    InvHolds(kind, run);
  }

  /** So a call that passes the check before the lock finds the read side free. */
  lemma PassingTheCheckNeverWaits(kind: Kind, run: Run<Event>, t: nat)
    requires run.Then? && Enabled(StateOf(kind, run.before), run.event)
    requires run.event == WakeFollower(t) || run.event == OpenDone(t, true) || (run.event.Consume? && run.event.task == t)
    requires var s := StateOf(kind, run); t in s.tasks && s.tasks[t].AtLock?
    ensures Enabled(StateOf(kind, run), EnterRead(t))
  {
    hide Apply, Enabled, Inv;
    InvHolds(kind, run);
    InvHolds(kind, run.before);
    CheckPassed(StateOf(kind, run.before), run.event, t);
    OpenCellIsFree(StateOf(kind, run), t);
  }

  lemma CheckPassed(s: State, e: Event, t: nat)
    requires Inv(s) && Enabled(s, e) && t in Apply(s, e).tasks && Apply(s, e).tasks[t].AtLock?
    requires e == WakeFollower(t) || e == OpenDone(t, true) || (e.Consume? && e.task == t)
    ensures var r := Apply(s, e); r.tasks[t].cell < |r.cells| && !r.cells[r.tasks[t].cell].closing
  {
    hide PendingOk;
  }

  lemma OpenCellIsFree(s: State, t: nat)
    requires Inv(s) && t in s.tasks && s.tasks[t].AtLock? && s.tasks[t].cell < |s.cells| && !s.cells[s.tasks[t].cell].closing
    ensures Enabled(s, EnterRead(t))
  {
    hide PendingOk;
    assert CellOk(s.kind, s.cells[s.tasks[t].cell]);
  }

  /** And a call that got the read side of a session still open finds its own cell in the pending map. */
  lemma ReservationOutlivesMessages(kind: Kind, run: Run<Event>, t: nat)
    requires var s := StateOf(kind, run); Enabled(s, EnterRead(t)) && !s.cells[s.tasks[t].cell].closing
    ensures Apply(StateOf(kind, run), EnterRead(t)).tasks[t].Consuming?
  {
    InvHolds(kind, run);
  }

  /** While `end_request` runs, after a normal session or a failed open, the session's reservation stands,
      and a `consume` for the same ID is turned away at once: it takes no lock and leaves nothing behind. */
  lemma ReentrantConsumeIsRejected(kind: Kind, run: Run<Event>, c: nat, t: nat)
    requires var s := StateOf(kind, run);
             c < |s.cells| && (s.cells[c].phase.Ending? || s.cells[c].phase.FailedEnding?) && t !in s.tasks
    ensures var s := StateOf(kind, run);
            var e := Consume(t, s.cells[c].sid);
            s.cells[c].sid in s.pending && s.pending[s.cells[c].sid] == c && Enabled(s, e) && Apply(s, e) == s
  {
    InvHolds(kind, run);
    var s := StateOf(kind, run);
    assert s.tasks - {t} == s.tasks;
  }

  // ---------------------------------------------------------------------------
  // What the events decide
  // ---------------------------------------------------------------------------

  /** The newest event could happen. */
  ghost predicate Happens(kind: Kind, run: Run<Event>) {
    run.Then? && Enabled(StateOf(kind, run.before), run.event)
  }

  /** The session of cell `c` is open: its RPC was opened, and its completer has not been woken since. */
  ghost predicate IsOpen(kind: Kind, run: Run<Event>, c: nat) {
    run.Then? &&
    if Happens(kind, run) && run.event.OpenDone? && StateOf(kind, run.before).tasks[run.event.task].cell == c then run.event.ok
    else IsOpen(kind, run.before, c) && !(Happens(kind, run) && (run.event.CompleterWake? || run.event.ReceiveJoined?) && run.event.cell == c)
  }

  /** What the event makes of an open session. */
  predicate OpenNow(s: State, e: Event, c: nat)
    requires Enabled(s, e) && c < |s.cells|
  {
    if e.OpenDone? && s.tasks[e.task].cell == c then e.ok
    else s.cells[c].phase.Serving? && !((e.CompleterWake? || e.ReceiveJoined?) && e.cell == c)
  }

  lemma OtherCallStays(s: State, e: Event, c: nat)
    requires Enabled(s, e) && IsTaskEvent(e) && c < |s.cells| && (e.Consume? || c != CellOf(s, e))
    ensures c < |Apply(s, e).cells| && Apply(s, e).cells[c] == s.cells[c]
  {
    hide ApplyCell, CellEnabled;
  }

  lemma OtherOwnerStays(s: State, e: Event, c: nat)
    requires Enabled(s, e) && !IsTaskEvent(e) && c < |s.cells| && c != e.cell
    ensures c < |Apply(s, e).cells| && Apply(s, e).cells[c] == s.cells[c]
  {
    hide ApplyTask, TaskEnabled, Read;
  }

  /** A step of another session, or of a call that has none yet. */
  lemma OtherCellStays(s: State, e: Event, c: nat)
    requires Enabled(s, e) && c < |s.cells| && (e.Consume? || c != CellOf(s, e))
    ensures c < |Apply(s, e).cells| && Apply(s, e).cells[c] == s.cells[c]
  {
    hide Apply, TaskEnabled, CellEnabled;
    if IsTaskEvent(e) {
      OtherCallStays(s, e, c);
    } else {
      OtherOwnerStays(s, e, c);
    }
  }

  lemma CallOpens(s: State, e: Event)
    requires Enabled(s, e) && IsTaskEvent(e) && !e.Consume? && CellOk(s.kind, s.cells[s.tasks[e.task].cell])
    ensures var c := s.tasks[e.task].cell;
            c < |Apply(s, e).cells| && (Apply(s, e).cells[c].phase.Serving? <==> OpenNow(s, e, c))
  {
    hide ApplyCell, CellEnabled;
  }

  lemma OwnerOpens(s: State, e: Event)
    requires Enabled(s, e) && !IsTaskEvent(e) && CellOk(s.kind, s.cells[e.cell])
    ensures e.cell < |Apply(s, e).cells| && (Apply(s, e).cells[e.cell].phase.Serving? <==> OpenNow(s, e, e.cell))
  {
    hide ApplyTask, TaskEnabled, Read;
  }

  lemma {:induction false} OpenStep(s: State, e: Event, c: nat)
    requires CellsOk(s) && Enabled(s, e) && c < |Apply(s, e).cells|
    ensures c < |s.cells| ==> (Apply(s, e).cells[c].phase.Serving? <==> OpenNow(s, e, c))
    ensures c >= |s.cells| ==> !Apply(s, e).cells[c].phase.Serving?
  {
    assert c < |s.cells| ==> CellOk(s.kind, s.cells[c]);
    hide CellsOk, CellOk, Apply, TaskEnabled, CellEnabled;
    if c >= |s.cells| {
      NewCellLearns(s, e, c);
    } else if e.Consume? || c != CellOf(s, e) {
      OtherCellStays(s, e, c);
    } else if IsTaskEvent(e) {
      CallOpens(s, e);
    } else {
      OwnerOpens(s, e);
    }
  }

  lemma CellsStay(s: State, e: Event)
    requires Enabled(s, e)
    ensures |s.cells| <= |Apply(s, e).cells|
    ensures e.OpenDone? ==> s.tasks[e.task].cell < |s.cells|
  {
    hide Read;
  }

  lemma {:induction false} NotOpenYet(kind: Kind, run: Run<Event>, c: nat)
    requires c >= |StateOf(kind, run).cells|
    ensures !IsOpen(kind, run, c)
  {
    hide Apply, Enabled;
    if run.Then? {
      if Happens(kind, run) {
        CellsStay(StateOf(kind, run.before), run.event);
      }
      NotOpenYet(kind, run.before, c);
    }
  }

  lemma {:induction false} OpenIff(kind: Kind, run: Run<Event>, c: nat)
    requires c < |StateOf(kind, run).cells|
    ensures StateOf(kind, run).cells[c].phase.Serving? <==> IsOpen(kind, run, c)
  {
    InvHolds(kind, run.before);
    var s := StateOf(kind, run.before);
    assert CellsOk(s);
    hide Apply, Enabled, Inv, CellsOk;
    if c < |s.cells| {
      OpenIff(kind, run.before, c);
    } else {
      NotOpenYet(kind, run.before, c);
    }
    if Happens(kind, run) {
      CellsStay(s, run.event);
      OpenStep(s, run.event, c);
    }
  }

  /** The newest event brings call `t` to the check before the lock of cell `c`: it opened the session, it found
      the cell ready, or it was woken by it. */
  ghost predicate FindsReady(kind: Kind, run: Run<Event>, t: nat, c: nat) {
    Happens(kind, run) &&
    var s := StateOf(kind, run.before);
    match run.event
    case OpenDone(u, ok) => u == t && ok && s.tasks[t].cell == c
    case WakeFollower(u) => u == t && s.tasks[t].cell == c
    case Consume(u, sid) => u == t && sid in s.pending && s.pending[sid] == c && s.cells[c].ready
    case _ => false
  }

  /** A call that finds its session ready goes on to the lock if and only if the session is open; otherwise it is
      turned away. */
  lemma JoinsIff(kind: Kind, run: Run<Event>, t: nat, c: nat)
    requires FindsReady(kind, run, t, c)
    ensures var s := StateOf(kind, run);
            if IsOpen(kind, run, c) then t in s.tasks && s.tasks[t] == AtLock(c) else t !in s.tasks
  {
    var s := StateOf(kind, run.before);
    InvHolds(kind, run.before);
    InvHolds(kind, run);
    assert c < |s.cells| && CellOk(s.kind, s.cells[c]);
    CellsStay(s, run.event);
    OpenIff(kind, run, c);
    hide IsOpen, PendingOk, TasksOk, Read;
  }

  /** A call that finds no session creates one; one whose session is not ready waits for it. */
  lemma ConsumeFinds(kind: Kind, run: Run<Event>, t: nat, sid: string)
    requires Enabled(StateOf(kind, run), Consume(t, sid))
    ensures var s := StateOf(kind, run);
            var r := Apply(s, Consume(t, sid));
            && (sid !in s.pending ==> r.tasks == s.tasks[t := Creating(|s.cells|)])
            && (sid in s.pending && !s.cells[s.pending[sid]].ready ==>
                  r.tasks == s.tasks[t := WaitReady(s.pending[sid])] && r.cells == s.cells)
  {
  }

  /** Under the read side the message starts if and only if the session is still open. */
  lemma MessageStartsIff(kind: Kind, run: Run<Event>, t: nat)
    requires Enabled(StateOf(kind, run), EnterRead(t))
    ensures var s := StateOf(kind, run);
            var c := s.tasks[t].cell;
            Apply(s, EnterRead(t)).tasks[t] == if IsOpen(kind, run, c) then Consuming(c) else Leaving(c)
  {
    var s := StateOf(kind, run);
    InvHolds(kind, run);
    assert CellOk(s.kind, s.cells[s.tasks[t].cell]);
    OpenIff(kind, run, s.tasks[t].cell);
    hide IsOpen, TasksOk, Read;
  }

  /** A message that ends, or is cancelled, gives the read side back and leaves. */
  lemma ReaderLeaves(kind: Kind, run: Run<Event>, t: nat, end: Event)
    requires t in StateOf(kind, run).tasks && StateOf(kind, run).tasks[t].Consuming?
    requires end == CancelTask(t) || (end.MessageDone? && end.task == t)
    ensures var s, r := StateOf(kind, run), StateOf(kind, Then(Then(run, end), LeaveRead(t)));
            r.tasks == s.tasks - {t} && r.pending == s.pending
  {
    var s := StateOf(kind, run);
    InvHolds(kind, run);
    var c := s.tasks[t].cell;
    hide Inv, Enabled, Apply;
    assert c < |s.cells| by {
      ConsumingHasCell(s, t);
    }
    MessageEnds(s, t, end);
    CallLeaves(Apply(s, end), t);
    assert s.tasks[t := Leaving(c)] - {t} == s.tasks - {t};
  }

  /** A call cancelled before it has the read side just leaves. */
  lemma WaitingCallLeaves(s: State, t: nat)
    requires Enabled(s, CancelTask(t)) && !s.tasks[t].Consuming?
    ensures Apply(s, CancelTask(t)) == s.(tasks := s.tasks - {t})
  {
  }

  lemma ConsumingHasCell(s: State, t: nat)
    requires Inv(s) && t in s.tasks
    ensures s.tasks[t].cell < |s.cells|
  {
    hide CellsOk, PendingOk;
  }

  lemma MessageEnds(s: State, t: nat, end: Event)
    requires t in s.tasks && s.tasks[t].Consuming? && s.tasks[t].cell < |s.cells|
    requires end == CancelTask(t) || (end.MessageDone? && end.task == t)
    ensures Enabled(s, end)
    ensures var r := Apply(s, end);
            r.tasks == s.tasks[t := Leaving(s.tasks[t].cell)] && |r.cells| == |s.cells| && r.pending == s.pending
  {
    hide CellEnabled, ApplyCell;
  }

  lemma CallLeaves(s: State, t: nat)
    requires t in s.tasks && s.tasks[t].Leaving? && s.tasks[t].cell < |s.cells|
    ensures Enabled(s, LeaveRead(t)) && Apply(s, LeaveRead(t)) == WithoutTask(s, t)
  {
    hide CellEnabled, ApplyCell;
  }

  /** The completer that waits for the write side gets it as soon as no message holds the read side. */
  lemma WriterEntersIff(kind: Kind, run: Run<Event>, c: nat)
    requires c < |StateOf(kind, run).cells| && StateOf(kind, run).cells[c].phase.Queued?
    ensures var s := StateOf(kind, run);
            Enabled(s, EnterWrite(c)) <==> forall t <- s.tasks :: s.tasks[t] != Consuming(c) && s.tasks[t] != Leaving(c)
  {
    InvHolds(kind, run);
    assert CellOk(StateOf(kind, run).kind, StateOf(kind, run).cells[c]);
    hide Enabled, Inv;
    WriterEnters(StateOf(kind, run), c);
  }

  lemma WriterEnters(s: State, c: nat)
    requires c < |s.cells| && s.cells[c].phase.Queued? && !s.cells[c].writer
    ensures Enabled(s, EnterWrite(c)) <==> !Read(s, c)
  {
    hide Read;
  }

  lemma {:induction false} KindStays(kind: Kind, run: Run<Event>)
    ensures StateOf(kind, run).kind == kind
  {
    if run.Then? {
      hide Apply, Enabled, Inv;
      KindStays(kind, run.before);
      InvHolds(kind, run.before);
      if Happens(kind, run) {
        StepKeepsInv(StateOf(kind, run.before), run.event);
      }
    }
  }

  /** The session was asked to finish: `done` was signalled, or a message failed. */
  ghost predicate AskedToFinish(kind: Kind, run: Run<Event>, c: nat) {
    run.Then? &&
    (AskedToFinish(kind, run.before, c) ||
     (Happens(kind, run) && AsksNow(StateOf(kind, run.before), run.event, c)))
  }

  predicate AsksNow(s: State, e: Event, c: nat)
    requires Enabled(s, e)
  {
    e == SignalDone(c) || (e.MessageDone? && e.failed && s.tasks[e.task].cell == c)
  }

  /** The server's response to the complete input arrived. */
  ghost predicate ServerAnswered(kind: Kind, run: Run<Event>, c: nat) {
    run.Then? && (ServerAnswered(kind, run.before, c) || (Happens(kind, run) && run.event == TransportDone(c, true)))
  }

  /** The receive loop of a bidirectional call is over: it ended, or a response failed. */
  ghost predicate ReceiveOver(kind: Kind, run: Run<Event>, c: nat) {
    run.Then? && (ReceiveOver(kind, run.before, c) || (Happens(kind, run) && ReceiveStops(StateOf(kind, run.before), run.event, c)))
  }

  predicate ReceiveStops(s: State, e: Event, c: nat)
    requires Enabled(s, e)
  {
    e == ReceiveEnd(c) || (e == ResponseDone(c, false) && !s.cells[c].phase.Responding?)
  }

  /** What a session's completer has learned. */
  predicate Learned(cell: Cell, asked: bool, answered: bool, over: bool) {
    (cell.done <==> asked) && (cell.received <==> over) && Judged(cell.phase, answered)
  }

  predicate Judged(phase: Phase, answered: bool) {
    match phase
    case WantWrite(failed) => failed <==> !answered
    case Queued(failed) => failed <==> !answered
    case _ => HoldsWrite(phase) || phase.Gone? || !answered
  }

  lemma OtherTeaches(s: State, e: Event, c: nat)
    requires Enabled(s, e) && (e.Consume? || c != CellOf(s, e))
    ensures !AsksNow(s, e, c) && e != TransportDone(c, true) && !ReceiveStops(s, e, c)
  {
    hide Read, TaskEnabled, CellEnabled;
  }

  lemma OwnerLearns(s: State, e: Event, asked: bool, answered: bool, over: bool)
    requires Enabled(s, e) && !IsTaskEvent(e) && CellOk(s.kind, s.cells[e.cell]) && Learned(s.cells[e.cell], asked, answered, over)
    ensures var c := e.cell;
            && c < |Apply(s, e).cells|
            && Learned(Apply(s, e).cells[c], asked || AsksNow(s, e, c), answered || e == TransportDone(c, true), over || ReceiveStops(s, e, c))
  {
    hide ApplyTask, TaskEnabled, Read, Drop;
    if e.Unlock? {
      DropKeepsFlags(WithCell(s, e.cell, s.cells[e.cell].(writer := false)), e.cell);
    }
  }

  lemma DropKeepsFlags(s: State, c: nat)
    requires c < |s.cells|
    ensures Drop(s, c).cells == s.cells[c := s.cells[c].(phase := Gone)]
  {
  }

  /** What the step of a call makes of its cell. */
  function CellAfterCall(cell: Cell, e: Event): Cell {
    match e
    case BeginDone(_, ok) =>
      if ok then cell.(phase := Opening) else cell.(phase := Gone, closing := true, error := true, ready := true)
    case OpenDone(_, ok) =>
      if ok then cell.(phase := Serving, ready := true)
      else cell.(phase := FailedEnding, closing := true, error := true, ready := true)
    case FailedEndDone(_) => cell.(phase := Gone)
    case MessageDone(_, failed) => cell.(done := cell.done || failed)
    case _ => cell
  }

  lemma CallCell(s: State, e: Event)
    requires Enabled(s, e) && IsTaskEvent(e) && !e.Consume?
    ensures var c := s.tasks[e.task].cell;
            c < |Apply(s, e).cells| && Apply(s, e).cells[c] == CellAfterCall(s.cells[c], e)
  {
    hide ApplyCell, CellEnabled;
  }

  lemma CallLearns(s: State, e: Event, asked: bool, answered: bool, over: bool)
    requires Enabled(s, e) && IsTaskEvent(e) && !e.Consume? && Learned(s.cells[s.tasks[e.task].cell], asked, answered, over)
    ensures var c := s.tasks[e.task].cell;
            && c < |Apply(s, e).cells|
            && Learned(Apply(s, e).cells[c], asked || AsksNow(s, e, c), answered, over)
  {
    hide ApplyTask, ApplyCell, CellEnabled, AsksNow, Learned, CellAfterCall;
    CallCell(s, e);
    CallNews(s, e);
    CellLearns(s.cells[s.tasks[e.task].cell], e, asked, answered, over);
  }

  lemma CreationLearns(cell: Cell, phase: Phase, closing: bool, error: bool, ready: bool, asked: bool, answered: bool, over: bool)
    requires Learned(cell, asked, answered, over) && Creation(cell.phase)
    requires Creation(phase) || phase.Serving? || phase.Gone?
    ensures Learned(cell.(phase := phase, closing := closing, error := error, ready := ready), asked, answered, over)
  {
  }

  lemma MessageLearns(cell: Cell, failed: bool, asked: bool, answered: bool, over: bool)
    requires Learned(cell, asked, answered, over)
    ensures Learned(cell.(done := cell.done || failed), asked || failed, answered, over)
  {
  }

  lemma CellLearns(cell: Cell, e: Event, asked: bool, answered: bool, over: bool)
    requires Learned(cell, asked, answered, over) && (e.BeginDone? ==> cell.phase.Beginning?)
    requires (e.OpenDone? ==> cell.phase.Opening?) && (e.FailedEndDone? ==> cell.phase.FailedEnding?)
    ensures Learned(CellAfterCall(cell, e), asked || (e.MessageDone? && e.failed), answered, over)
  {
    hide Learned;
    match e
    case BeginDone(_, ok) =>
      CreationLearns(cell, Opening, cell.closing, cell.error, cell.ready, asked, answered, over);
      CreationLearns(cell, Gone, true, true, true, asked, answered, over);
    case OpenDone(_, ok) =>
      CreationLearns(cell, Serving, cell.closing, cell.error, true, asked, answered, over);
      CreationLearns(cell, FailedEnding, true, true, true, asked, answered, over);
    case FailedEndDone(_) => CreationLearns(cell, Gone, cell.closing, cell.error, cell.ready, asked, answered, over);
    case MessageDone(_, failed) => MessageLearns(cell, failed, asked, answered, over);
    case _ =>
  }

  lemma CallNews(s: State, e: Event)
    requires Enabled(s, e) && IsTaskEvent(e) && !e.Consume?
    ensures var cell := s.cells[s.tasks[e.task].cell];
            && (e.BeginDone? ==> cell.phase.Beginning?)
            && (e.OpenDone? ==> cell.phase.Opening?)
            && (e.FailedEndDone? ==> cell.phase.FailedEnding?)
            && (AsksNow(s, e, s.tasks[e.task].cell) <==> e.MessageDone? && e.failed)
  {
    hide CellEnabled;
  }

  lemma NewCellLearns(s: State, e: Event, c: nat)
    requires Enabled(s, e) && |s.cells| <= c < |Apply(s, e).cells|
    ensures Apply(s, e).cells[c] == NewCell(e.sid)
    ensures !AsksNow(s, e, c) && e != TransportDone(c, true) && !ReceiveStops(s, e, c)
  {
    CellsGrowByConsume(s, e);
  }

  lemma CellsGrowByConsume(s: State, e: Event)
    requires Enabled(s, e) && |Apply(s, e).cells| > |s.cells|
    ensures e.Consume? && Apply(s, e).cells == s.cells + [NewCell(e.sid)]
  {
    hide Read;
  }

  lemma {:induction false} NothingLearnedYet(kind: Kind, run: Run<Event>, c: nat)
    requires c >= |StateOf(kind, run).cells|
    ensures !AskedToFinish(kind, run, c) && !ServerAnswered(kind, run, c) && !ReceiveOver(kind, run, c)
  {
    if run.Then? {
      InvHolds(kind, run.before);
      if Happens(kind, run) {
        CellsStay(StateOf(kind, run.before), run.event);
        assert run.event.MessageDone? ==> StateOf(kind, run.before).tasks[run.event.task].cell < |StateOf(kind, run.before).cells|;
      }
      hide Apply, Inv;
      NothingLearnedYet(kind, run.before, c);
    }
  }

  lemma {:induction false} CompleterLearns(kind: Kind, run: Run<Event>, c: nat)
    requires c < |StateOf(kind, run).cells|
    ensures Learned(StateOf(kind, run).cells[c], AskedToFinish(kind, run, c), ServerAnswered(kind, run, c), ReceiveOver(kind, run, c))
  {
    InvHolds(kind, run.before);
    var s, e := StateOf(kind, run.before), run.event;
    assert c < |s.cells| ==> CellOk(s.kind, s.cells[c]);
    hide Apply, Enabled, Inv, Learned, AsksNow, ReceiveStops, CellOk;
    if c < |s.cells| {
      CompleterLearns(kind, run.before, c);
    } else {
      NothingLearnedYet(kind, run.before, c);
    }
    if Happens(kind, run) {
      var asked, answered, over := AskedToFinish(kind, run.before, c), ServerAnswered(kind, run.before, c), ReceiveOver(kind, run.before, c);
      if c >= |s.cells| {
        NewCellLearns(s, e, c);
      } else if e.Consume? || c != CellOf(s, e) {
        OtherCellStays(s, e, c);
        OtherTeaches(s, e, c);
      } else if IsTaskEvent(e) {
        CallLearns(s, e, asked, answered, over);
        NoReceiveNews(s, e, c);
      } else {
        OwnerLearns(s, e, asked, answered, over);
      }
    }
  }

  lemma NoReceiveNews(s: State, e: Event, c: nat)
    requires Enabled(s, e) && IsTaskEvent(e)
    ensures !ReceiveStops(s, e, c) && e != TransportDone(c, true)
  {
  }

  /** Under the write side the handler gets the response if and only if the call is client-streaming and its
      response arrived; in every other case the session ends at once. */
  lemma ResponseIff(kind: Kind, run: Run<Event>, c: nat)
    requires Enabled(StateOf(kind, run), EnterWrite(c))
    ensures Apply(StateOf(kind, run), EnterWrite(c)).cells[c].phase ==
            if kind.ClientStreaming? && ServerAnswered(kind, run, c) then Responding else Ending
  {
    CompleterLearns(kind, run, c);
    KindStays(kind, run);
    hide Read;
  }

  /** The completer of a client-streaming call can go on exactly when the session was asked to finish, and asks the
      transport for the response; when its context ended instead, it goes to the lock at once. */
  lemma CompleterWakes(kind: Kind, run: Run<Event>, c: nat)
    requires c < |StateOf(kind, run).cells| && IsOpen(kind, run, c) && kind.ClientStreaming?
    ensures var s := StateOf(kind, run);
            && (Enabled(s, CompleterWake(c, false)) <==> AskedToFinish(kind, run, c))
            && (AskedToFinish(kind, run, c) ==> Apply(s, CompleterWake(c, false)).cells[c].phase == Transport)
            && Enabled(s, CompleterWake(c, true)) && Apply(s, CompleterWake(c, true)).cells[c].phase == WantWrite(true)
  {
    OpenIff(kind, run, c);
    CompleterLearns(kind, run, c);
    KindStays(kind, run);
  }

  ghost predicate At(kind: Kind, run: Run<Event>, c: nat, phase: Phase) {
    c < |StateOf(kind, run).cells| && StateOf(kind, run).cells[c].phase == phase
  }

  /** Once woken, a completer goes on: from the transport's answer, good or bad, to the lock, where it queues. */
  lemma CompleterGoesOn(kind: Kind, run: Run<Event>, c: nat, ok: bool)
    ensures At(kind, run, c, Transport) ==> At(kind, Then(run, TransportDone(c, ok)), c, WantWrite(!ok))
    ensures At(kind, run, c, WantWrite(ok)) ==> At(kind, Then(run, QueueWrite(c)), c, Queued(ok))
    ensures kind.BidiStreaming? && IsOpen(kind, run, c) && ReceiveOver(kind, run, c) ==>
              At(kind, Then(run, ReceiveJoined(c)), c, WantWrite(true))
  {
    var s := StateOf(kind, run);
    if c < |s.cells| {
      OpenIff(kind, run, c);
      CompleterLearns(kind, run, c);
      KindStays(kind, run);
    } else {
      NotOpenYet(kind, run, c);
    }
    hide IsOpen, ReceiveOver, ServerAnswered, AskedToFinish, Apply, Enabled;
    if c < |s.cells| {
      if s.cells[c].phase.Transport? {
        TransportAnswers(s, c, ok);
      } else if s.cells[c].phase.WantWrite? {
        CompleterQueues(s, c);
      } else if s.cells[c].phase.Serving? && s.kind.BidiStreaming? && s.cells[c].received {
        CompleterJoins(s, c);
      }
    }
  }

  lemma TransportAnswers(s: State, c: nat, ok: bool)
    requires c < |s.cells| && s.cells[c].phase.Transport?
    ensures Enabled(s, TransportDone(c, ok))
    ensures Apply(s, TransportDone(c, ok)) == WithCell(s, c, s.cells[c].(phase := WantWrite(!ok)))
  {
  }

  lemma CompleterQueues(s: State, c: nat)
    requires c < |s.cells| && s.cells[c].phase.WantWrite?
    ensures Enabled(s, QueueWrite(c))
    ensures Apply(s, QueueWrite(c)) == WithCell(s, c, s.cells[c].(phase := Queued(s.cells[c].phase.failed), waiting := true))
  {
  }

  lemma CompleterJoins(s: State, c: nat)
    requires c < |s.cells| && s.cells[c].phase.Serving? && s.kind.BidiStreaming? && s.cells[c].received
    ensures Enabled(s, ReceiveJoined(c))
    ensures Apply(s, ReceiveJoined(c)) == WithCell(s, c, s.cells[c].(closing := true, phase := WantWrite(true)))
  {
  }

  /** Responses of a bidirectional call are handled one at a time until its receive loop is over; then its
      completer goes on. */
  lemma ReceivesIff(kind: Kind, run: Run<Event>, c: nat)
    requires c < |StateOf(kind, run).cells| && IsOpen(kind, run, c) && kind.BidiStreaming?
    ensures var s := StateOf(kind, run);
            && (Enabled(s, ResponseStart(c)) <==> !s.cells[c].responding && !ReceiveOver(kind, run, c))
            && (Enabled(s, ReceiveJoined(c)) <==> ReceiveOver(kind, run, c))
  {
    OpenIff(kind, run, c);
    CompleterLearns(kind, run, c);
    KindStays(kind, run);
  }

  // ---------------------------------------------------------------------------
  // The sink's endpoint consumer
  // ---------------------------------------------------------------------------

  /** The consumer's pending map, its cells and the calls suspended in it.  Each method is the code
      between two suspension points. */
  class SinkConsumer {
    const kind: Kind
    var pending: map<string, nat>
    var cells: seq<Cell>
    var calls: map<nat, Pc>

    constructor (kind: Kind)
      ensures this.kind == kind && View() == Initial(kind)
    {
      this.kind := kind;
      pending, cells, calls := map[], [], map[];
    }

    function View(): State
      reads this
    {
      State(kind, pending, cells, calls)
    }

    /** Remove a finished reservation; no effect if the entry is another cell's by now. */
    method DropReservation(c: nat)
      requires c < |cells|
      modifies this
      ensures View() == Drop(old(View()), c)
    {
      var sid := cells[c].sid;
      cells := cells[c := cells[c].(phase := Gone)];
      if sid in pending && pending[sid] == c {
        pending := pending - {sid};
      }
    }

    /** The check before the lock. */
    method JoinSession(t: nat, c: nat)
      requires c < |cells|
      modifies this`calls
      ensures View() == Join(old(View()), t, c)
    {
      if cells[c].closing || cells[c].error {
        calls := calls - {t};
      } else {
        calls := calls[t := AtLock(c)];
      }
    }

    /** `consume` up to its first suspension: reserve the ID, or find its session. */
    method BeginConsume(t: nat, sid: string)
      requires Enabled(View(), Consume(t, sid))
      modifies this
      ensures View() == Apply(old(View()), Consume(t, sid))
    {
      if sid !in pending {
        var c := |cells|;
        cells := cells + [NewCell(sid)];
        pending := pending[sid := c];
        calls := calls[t := Creating(c)];
      } else {
        var c := pending[sid];
        if cells[c].ready {
          JoinSession(t, c);
        } else {
          calls := calls[t := WaitReady(c)];
        }
      }
    }

    method FollowerWoken(t: nat)
      requires Enabled(View(), WakeFollower(t))
      modifies this
      ensures View() == Apply(old(View()), WakeFollower(t))
    {
      JoinSession(t, calls[t].cell);
    }

    method FinishBegin(t: nat, ok: bool)
      requires Enabled(View(), BeginDone(t, ok))
      modifies this
      ensures View() == Apply(old(View()), BeginDone(t, ok))
    {
      var c := calls[t].cell;
      if ok {
        cells := cells[c := cells[c].(phase := Opening)];
      } else {
        cells := cells[c := cells[c].(closing := true, error := true, ready := true)];
        DropReservation(c);
        calls := calls - {t};
      }
    }

    /** Publish the session, or publish the failure before `end_request` runs. */
    method FinishOpen(t: nat, ok: bool)
      requires Enabled(View(), OpenDone(t, ok))
      modifies this
      ensures View() == Apply(old(View()), OpenDone(t, ok))
    {
      var c := calls[t].cell;
      if ok {
        cells := cells[c := cells[c].(phase := Serving, ready := true)];
        calls := calls[t := AtLock(c)];
      } else {
        cells := cells[c := cells[c].(closing := true, error := true, ready := true)];
        cells := cells[c := cells[c].(phase := FailedEnding)];
      }
    }

    method FinishFailedEnd(t: nat)
      requires Enabled(View(), FailedEndDone(t))
      modifies this
      ensures View() == Apply(old(View()), FailedEndDone(t))
    {
      DropReservation(calls[t].cell);
      calls := calls - {t};
    }

    /** The checks under the read lock, up to the handler. */
    method EnterReadSide(t: nat)
      requires Enabled(View(), EnterRead(t))
      modifies this
      ensures View() == Apply(old(View()), EnterRead(t))
    {
      var c := calls[t].cell;
      if cells[c].closing || cells[c].finished {
        calls := calls[t := Leaving(c)];
        return;
      }
      var sid := cells[c].sid;
      if sid !in pending || pending[sid] != c {
        calls := calls[t := Leaving(c)];
        return;
      }
      calls := calls[t := Consuming(c)];
    }

    /** The handler returned, or raised: then the session is asked to finish. */
    method FinishMessage(t: nat, failed: bool)
      requires Enabled(View(), MessageDone(t, failed))
      modifies this
      ensures View() == Apply(old(View()), MessageDone(t, failed))
    {
      var c := calls[t].cell;
      if failed {
        cells := cells[c := cells[c].(done := true)];
      }
      calls := calls[t := Leaving(c)];
      assert !failed ==> cells[c := cells[c].(done := cells[c].done || failed)] == cells;
    }

    /** The completer has the write side: no call is inside any more and none will enter. */
    method EnterWriteSide(c: nat)
      requires Enabled(View(), EnterWrite(c))
      modifies this
      ensures View() == Apply(old(View()), EnterWrite(c))
    {
      var cell := cells[c].(waiting := false, writer := true);
      cell := cell.(finished := true);
      if kind.ClientStreaming? && !cell.phase.failed {
        cell := cell.(phase := Responding);
      } else {
        cell := cell.(phase := Ending);
      }
      cells := cells[c := cell];
    }

    /** Release the write side and give the stream ID back. */
    method FinishSession(c: nat)
      requires Enabled(View(), Unlock(c))
      modifies this
      ensures View() == Apply(old(View()), Unlock(c))
    {
      cells := cells[c := cells[c].(writer := false)];
      DropReservation(c);
    }

    /** The completer of a client-streaming call learns that the input is complete, or that the context ended. */
    method CompleterWoken(c: nat, failed: bool)
      requires Enabled(View(), CompleterWake(c, failed))
      modifies this
      ensures View() == Apply(old(View()), CompleterWake(c, failed))
    {
      var cell := cells[c].(closing := true);
      if failed {
        cell := cell.(phase := WantWrite(true));
      } else {
        cell := cell.(phase := Transport);
      }
      cells := cells[c := cell];
    }

    /** The completer of a bidirectional call learns that the receive loop ended. */
    method ReceiveLoopEnded(c: nat)
      requires Enabled(View(), ReceiveJoined(c))
      modifies this
      ensures View() == Apply(old(View()), ReceiveJoined(c))
    {
      var cell := cells[c].(closing := true);
      cells := cells[c := cell.(phase := WantWrite(true))];
    }

    method FinishResponse(c: nat, ok: bool)
      requires Enabled(View(), ResponseDone(c, ok))
      modifies this
      ensures View() == Apply(old(View()), ResponseDone(c, ok))
    {
      var cell := cells[c];
      if cell.phase.Responding? {
        cell := cell.(phase := Ending);
      } else {
        cell := cell.(responding := false);
        if !ok {
          cell := cell.(received := true);
        }
      }
      cells := cells[c := cell];
    }
  }
}
