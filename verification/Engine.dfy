/** The transition engine as a step system: StartTransition and AbortTransition calls, `globalConcurrency` workers, the
    queue, the BMC limiters and the database interleave one step at a time. A step is a critical section, one store
    transaction, one backend call or one channel operation; a snapshot taken in a section is written by a later step.
    `Enabled` says when a step can be taken, and for each part of the state one function says which steps change it
    and how; every other step leaves that part alone. */
module Engine {
  import opened Text
  import opened Records
  import opened PowerStates
  import opened Retry
  import opened Planning
  import opened TransitionStore
  import opened Sections

  /** The limits that the policy fixes; `polls` is the most reads one verification makes. */
  datatype Limits = Limits(workers: nat, perBMC: nat, attempts: nat, queueSize: nat, polls: nat, updater: bool)

  predicate ValidLimits(l: Limits) {
    l.workers > 0 && l.perBMC > 0 && l.attempts > 0 && l.queueSize > 0 && l.polls > 0
  }

  /** `ExecutionRequest`. */
  datatype ExecutionRequest = ExecutionRequest(
    transitionID: string,
    taskID: string,
    nodeID: string,
    bmcID: string,
    endpoint: string,
    credentialID: string,
    insecureSkipVerify: bool,
    operation: Operation)

  function RequestFor(transitionID: string, t: Task, op: Operation): ExecutionRequest {
    ExecutionRequest(transitionID, t.id, t.nodeID, t.bmcID, t.bmcEndpoint, t.credentialID, t.insecureSkipVerify, op)
  }

  /** `queuedTask`. */
  datatype Item = Item(transitionID: string, operation: Operation, task: Task)

  /** Where a task is. */
  datatype Place =
    | Waiting                       // StartTransition has not offered it to the queue yet
    | Queued
    | Held(worker: nat)
    | Dropped                       // lost to a failed enqueue or a failed "running" write
    | Done(outcome: TaskState)      // counted

  /** A task as the create call returned it. */
  datatype Made = Made(task: Task, operation: Operation)

  /** A write of a task row: not made yet, or what the database answered. */
  datatype Attempt = Untried | Refused | Saved

  function Tried(r: Result<Task>): Attempt {
    if r.Ok? then Saved else Refused
  }

  /** What was done for a task: the requests executed and their results, the row its completion was written with, the
      state SMD accepted, whether its transition's context had ended when it was dequeued, and how the write that
      announces it as running and the write that completes it went. */
  datatype Work = Work(
    requests: seq<ExecutionRequest>,
    calls: seq<CallResult>,
    row: Option<Task>,
    patched: Option<string>,
    late: bool,
    announced: Attempt,
    recorded: Attempt)

  const NO_WORK := Work([], [], None, None, false, Untried, Untried)

  datatype Ending = Success | CanceledBy(detail: string) | FailedBy(detail: string)

  datatype Stage =
    | Fetched
    | MarkingRunning(snapshot: Transition)
    | Marked
    | Announcing
    | Acquiring
    | Executing(attempt: nat)
    | BackingOff(attempt: nat)
    | Verifying(attempts: nat, last: string, done: nat)
    | Completing(attempts: nat, power: string, result: Ending)
    | Writing(row: Task)
    | Recording(outcome: TaskState)
    | Finalizing(snapshot: Transition)
    | Releasing

  /** A worker; `task` is executeTask's local copy and `held` the BMC whose limiter it holds, if any. */
  datatype Worker = Idle | Exited | Busy(item: Item, task: Task, held: string, at: Stage)

  /** A StartTransition call after its create committed. */
  datatype Call =
    | Registering(transition: Transition, items: seq<Item>)
    | Enqueueing(items: seq<Item>)
    | Finishing(transition: Transition)

  /** What a closed transition's progress entry was, and which worker closed it. */
  datatype Closing = Closing(progress: Progress, worker: nat)

  datatype State = State(
    limits: Limits,
    db: Database,
    made: map<string, Made>,
    places: map<string, Place>,
    work: map<string, Work>,
    calls: map<string, Call>,
    progress: map<string, Progress>,
    closed: map<string, Closing>,
    markers: map<string, string>,      // the task whose worker marked the transition running
    canceled: set<string>,
    aborts: map<string, Transition>,   // snapshots AbortTransition has yet to write
    queue: seq<Item>,
    queueClosed: bool,
    shutdown: bool,
    workers: seq<Worker>,
    limiters: map<string, nat>)

  function Init(l: Limits): State {
    State(l, EMPTY, map[], map[], map[], map[], map[], map[], map[], {}, map[], [], false, false,
          seq(l.workers, _ => Idle), map[])
  }

  datatype Step =
    | CreateStep(req: Request, nodeIDs: seq<string>, routing: Routing, newID: Uuid, ids: seq<Uuid>, now: Time,
                 fault: Fault)
    | RegisterStep(id: string)
    | EnqueueStep(id: string)
    | EnqueueFailStep(id: string)
    | FinishStep(id: string, now: Time, fault: Fault)
    | AbortStep(id: string, now: Time)
    | AbortWriteStep(id: string, now: Time, fault: Fault)
    | ShutdownStep
    | CloseStep
    | WorkerStep(w: nat, act: Action)

  /** What a worker does next. */
  datatype Action =
    | Dequeue
    | Exit
    | Mark(now: Time)
    | RunningWrite(now: Time, fault: Fault)
    | Check(now: Time)
    | Announce(now: Time, fault: Fault)
    | Acquire
    | AcquireCanceled
    | Execute(result: CallResult, detail: string)
    | Wake(interrupted: bool)
    | Read(power: string, timedOut: bool)
    | ReadError(detail: string, contextEnded: bool)
    | Settle(patched: bool, now: Time)
    | TaskWrite(now: Time, fault: Fault)
    | Record(now: Time)
    | FinalWrite(now: Time, fault: Fault)
    | Release

  // ---------------------------------------------------------------- who has what

  predicate IsBusy(s: State, w: nat) {
    w < |s.workers| && s.workers[w].Busy?
  }

  /** The step is one of worker `w`. */
  predicate By(step: Step, w: nat) {
    step.WorkerStep? && step.w == w
  }

  function WorkerAt(workers: seq<Worker>, w: nat): Worker {
    if w < |workers| then workers[w] else Idle
  }

  /** Stage, task and transition of a busy worker. */
  function At(s: State, w: nat): Stage {
    if IsBusy(s, w) then s.workers[w].at else Releasing
  }

  function TaskOf(s: State, w: nat): string {
    if IsBusy(s, w) then s.workers[w].item.task.id else ""
  }

  function TransitionOf(s: State, w: nat): string {
    if IsBusy(s, w) then s.workers[w].item.transitionID else ""
  }

  function WorkOn(work: map<string, Work>, t: string): Work {
    if t in work then work[t] else NO_WORK
  }

  /** The execution context of the worker's item has ended. */
  predicate ContextEnded(s: State, id: string) {
    id in s.canceled || s.shutdown
  }

  predicate KnownTask(s: State, w: nat) {
    IsBusy(s, w) && TaskOf(s, w) in s.work
  }

  function Items(c: Call): seq<Item> {
    if c.Finishing? then [] else c.items
  }

  function ItemsOf(s: State, id: string): seq<Item> {
    if id in s.calls then Items(s.calls[id]) else []
  }

  predicate CanRegister(s: State, id: string) {
    id in s.calls && s.calls[id].Registering?
  }

  predicate CanEnqueue(s: State, id: string) {
    id in s.calls && s.calls[id].Enqueueing? && s.calls[id].items != []
  }

  predicate CanFinish(s: State, id: string) {
    id in s.calls && s.calls[id].Finishing?
  }

  // ---------------------------------------------------------------- when a step can be taken

  predicate CanDequeue(s: State, w: nat) {
    w < |s.workers| && s.workers[w].Idle? && s.queue != [] && s.queue[0].task.id in s.work
  }

  function Occupancy(limiters: map<string, nat>, b: string): nat {
    if b in limiters then limiters[b] else 0
  }

  predicate CanAcquire(s: State, w: nat) {
    && IsBusy(s, w) && At(s, w).Acquiring?
    && var b := TrimSpace(s.workers[w].task.bmcID);
    (b == "" || Occupancy(s.limiters, b) < s.limits.perBMC)
  }

  predicate CanAct(s: State, w: nat, act: Action) {
    if act.Dequeue? then CanDequeue(s, w)
    else if act.Exit? then w < |s.workers| && s.workers[w].Idle? && s.shutdown
    else KnownTask(s, w) && CanMove(s, w, act)
  }

  predicate CanMove(s: State, w: nat, act: Action)
    requires IsBusy(s, w)
  {
    var wk := s.workers[w];
    match act
    case Dequeue | Exit => false
    case Mark(_) => wk.at.Fetched?
    case RunningWrite(_, _) => wk.at.MarkingRunning?
    case Check(_) => wk.at.Marked?
    case Announce(_, _) => wk.at.Announcing?
    case Acquire => CanAcquire(s, w)
    case AcquireCanceled =>
      wk.at.Acquiring? && TrimSpace(wk.task.bmcID) != "" && ContextEnded(s, wk.item.transitionID)
    case Execute(_, _) => wk.at.Executing?
    case Wake(_) => wk.at.BackingOff?
    case Read(power, timedOut) =>
      && wk.at.Verifying? && ExpectedState(wk.item.operation).Some?
      && (timedOut || wk.at.done + 1 < s.limits.polls ||
            EqualFold(TrimSpace(power), ExpectedState(wk.item.operation).value))
    case ReadError(_, _) => wk.at.Verifying?
    case Settle(_, _) => wk.at.Completing?
    case TaskWrite(_, _) => wk.at.Writing?
    case Record(_) => wk.at.Recording?
    case FinalWrite(_, _) => wk.at.Finalizing?
    case Release => wk.at.Releasing?
  }

  /** The node list of a StartTransition call is normalised and not empty. */
  ghost predicate Enabled(s: State, step: Step) {
    match step
    case CreateStep(req, nodeIDs, routing, id, ids, now, fault) =>
      |ids| == |nodeIDs| && nodeIDs != [] && Ascending(nodeIDs) && Tidied(nodeIDs)
    case RegisterStep(id) => CanRegister(s, id)
    case EnqueueStep(id) => CanEnqueue(s, id) && !s.queueClosed && |s.queue| < s.limits.queueSize
    case EnqueueFailStep(id) => CanEnqueue(s, id)
    case FinishStep(id, now, fault) => CanFinish(s, id)
    case AbortStep(id, now) => Abortable(s.progress, id)
    case AbortWriteStep(id, now, fault) => id in s.aborts
    case ShutdownStep => !s.shutdown
    case CloseStep => s.shutdown && !s.queueClosed
    case WorkerStep(w, act) => CanAct(s, w, act)
  }

  // ---------------------------------------------------------------- the database

  /** The store call a worker makes. */
  function WorkerOp(wk: Worker, act: Action): Option<Op> {
    if !wk.Busy? then None
    else
      match act
      case RunningWrite(now, fault) =>
        if wk.at.MarkingRunning? then Some(UpdateOp(wk.at.snapshot, now, fault)) else None
      case FinalWrite(now, fault) => if wk.at.Finalizing? then Some(UpdateOp(wk.at.snapshot, now, fault)) else None
      case Announce(now, fault) => Some(UpdateTaskOp(wk.task, now, fault))
      case TaskWrite(now, fault) => if wk.at.Writing? then Some(UpdateTaskOp(wk.at.row, now, fault)) else None
      case _ => None
  }

  /** The store call a step makes, if it makes one. */
  function OpOf(s: State, step: Step): Option<Op> {
    match step
    case CreateStep(req, nodeIDs, routing, id, ids, now, fault) =>
      var tasks := PlanTasks(routing, nodeIDs, req.operation, req.dryRun, now);
      Some(CreateOp(PlanTransition(req, tasks, now), tasks, id, ids, now, fault))
    case FinishStep(id, now, fault) =>
      if CanFinish(s, id) then Some(UpdateOp(s.calls[id].transition.(updatedAt := now), now, fault)) else None
    case AbortWriteStep(id, now, fault) => if id in s.aborts then Some(UpdateOp(s.aborts[id], now, fault)) else None
    case WorkerStep(w, act) => if w < |s.workers| then WorkerOp(s.workers[w], act) else None
    case _ => None
  }

  function NextDb(s: State, step: Step): Database {
    if OpOf(s, step).None? then s.db else ApplyOp(s.db, OpOf(s, step).value)
  }

  // ---------------------------------------------------------------- what the engine knows of its tasks

  /** The transition and the tasks that a creation returns. */
  function Created(s: State, step: Step): Option<(Transition, seq<Task>)> {
    if !step.CreateStep? || |step.ids| != |step.nodeIDs| then None
    else
      var tasks := PlanTasks(step.routing, step.nodeIDs, step.req.operation, step.req.dryRun, step.now);
      match Create(s.db, PlanTransition(step.req, tasks, step.now), tasks, step.newID, step.ids, step.now, step.fault).1
      case Ok(created) => Some(created)
      case Err(_) => None
  }

  function News(s: State, step: Step): seq<Task> {
    if Created(s, step).None? then [] else Created(s, step).value.1
  }

  function AddMade(made: map<string, Made>, news: seq<Task>, op: Operation): map<string, Made> {
    if news == [] then made
    else AddMade(made, news[..|news| - 1], op)[news[|news| - 1].id := Made(news[|news| - 1], op)]
  }

  function FirstPlace(t: Task): Place {
    if t.state.Pending? then Waiting else Done(t.state)
  }

  function AddPlaces(places: map<string, Place>, news: seq<Task>): map<string, Place> {
    if news == [] then places
    else AddPlaces(places, news[..|news| - 1])[news[|news| - 1].id := FirstPlace(news[|news| - 1])]
  }

  function AddWork(work: map<string, Work>, news: seq<Task>): map<string, Work> {
    if news == [] then work else AddWork(work, news[..|news| - 1])[news[|news| - 1].id := NO_WORK]
  }

  function NextMade(s: State, step: Step): map<string, Made> {
    if step.CreateStep? then AddMade(s.made, News(s, step), step.req.operation) else s.made
  }

  function DropAll(places: map<string, Place>, items: seq<Item>): map<string, Place> {
    if items == [] then places else DropAll(places, items[..|items| - 1])[items[|items| - 1].task.id := Dropped]
  }

  /** The worker gives its task up: it does not find the entry of the transition, or the "running" write fails. */
  predicate GivesUpTask(s: State, wk: Worker, act: Action) {
    wk.Busy? &&
    match act
    case Mark(now) => MarkOf(s.progress, wk.item.transitionID, now).NoEntry?
    case RunningWrite(now, fault) => wk.at.MarkingRunning? && Update(s.db, wk.at.snapshot, now, fault).1.Err?
    case _ => false
  }

  function OutcomeAt(at: Stage): TaskState {
    if at.Recording? then at.outcome else Pending
  }

  /** Where the step puts the task it moves, if it moves one. */
  function WorkerPlaces(s: State, w: nat, act: Action): map<string, Place>
    requires w < |s.workers|
  {
    var wk := s.workers[w];
    if act.Dequeue? then if s.queue == [] then s.places else s.places[s.queue[0].task.id := Held(w)]
    else if !wk.Busy? then s.places
    else if GivesUpTask(s, wk, act) then s.places[wk.item.task.id := Dropped]
    else if act.Record? then s.places[wk.item.task.id := Done(OutcomeAt(wk.at))]
    else s.places
  }

  /** A call that gives up loses what it has not offered. */
  function NextPlaces(s: State, step: Step): map<string, Place> {
    match step
    case CreateStep(_, _, _, _, _, _, _) => AddPlaces(s.places, News(s, step))
    case EnqueueStep(id) => if CanEnqueue(s, id) then s.places[s.calls[id].items[0].task.id := Queued] else s.places
    case EnqueueFailStep(id) => DropAll(s.places, ItemsOf(s, id))
    case WorkerStep(w, act) => if w < |s.workers| then WorkerPlaces(s, w, act) else s.places
    case _ => s.places
  }

  /** Whether SMD is told, and its answer. */
  function SMDAnswer(l: Limits, wk: Worker, patched: bool): (Option<string>, Option<UpdateError>) {
    if !wk.Busy? || !wk.at.Completing? || !wk.at.result.Success? || wk.task.dryRun || !l.updater then (None, None)
    else UpdateNodePowerState(wk.task.nodeID, TrimSpace(wk.at.power), patched)
  }

  /** What the action adds to the record `k` of the worker's task. */
  function NextNote(s: State, wk: Worker, k: Work, act: Action): Work {
    if !wk.Busy? then k
    else
      match act
      case Announce(now, fault) => k.(announced := Tried(UpdateTask(s.db, wk.task, now, fault).1))
      case Execute(r, _) =>
        k.(calls := k.calls + [r],
           requests := k.requests + [RequestFor(wk.item.transitionID, wk.task, wk.item.operation)])
      case Settle(patched, _) => k.(patched := SMDAnswer(s.limits, wk, patched).0)
      case TaskWrite(now, fault) =>
        if !wk.at.Writing? then k
        else k.(row := Some(SavedRow(s.db, wk.at.row, now, fault)),
                recorded := Tried(UpdateTask(s.db, wk.at.row, now, fault).1))
      case _ => k
  }

  /** The task a worker has after writing it. */
  function SavedRow(db: Database, t: Task, now: Time, fault: Fault): Task {
    if UpdateTask(db, t, now, fault).1.Ok? then UpdateTask(db, t, now, fault).1.value else t
  }

  function WorkerWork(s: State, w: nat, act: Action): map<string, Work>
    requires w < |s.workers|
  {
    var wk := s.workers[w];
    if act.Dequeue? then
      if s.queue == [] then s.work
      else
        var item := s.queue[0];
        s.work[item.task.id := WorkOn(s.work, item.task.id).(late := ContextEnded(s, item.transitionID))]
    else if wk.Busy? && (act.Announce? || act.Execute? || act.Settle? || act.TaskWrite?) then
      s.work[wk.item.task.id := NextNote(s, wk, WorkOn(s.work, wk.item.task.id), act)]
    else s.work
  }

  function NextWork(s: State, step: Step): map<string, Work> {
    match step
    case CreateStep(_, _, _, _, _, _, _) => AddWork(s.work, News(s, step))
    case WorkerStep(w, act) => if w < |s.workers| then WorkerWork(s, w, act) else s.work
    case _ => s.work
  }

  // ---------------------------------------------------------------- StartTransition calls and the queue

  function PendingItems(id: string, op: Operation, news: seq<Task>): seq<Item> {
    if news == [] then []
    else
      var t := news[|news| - 1];
      PendingItems(id, op, news[..|news| - 1]) + if t.state.Pending? then [Item(id, op, t)] else []
  }

  /** After the creation either only the closing update of a finished transition is left, or its registration. */
  function FirstCall(req: Request, row: Transition, news: seq<Task>): Call {
    if req.dryRun || CountState(news, Pending) == 0 then Finishing(row)
    else Registering(row, PendingItems(row.id, req.operation, news))
  }

  function AfterOffer(calls: map<string, Call>, id: string): map<string, Call> {
    if id !in calls || !calls[id].Enqueueing? then calls
    else if |calls[id].items| <= 1 then calls - {id}
    else calls[id := Enqueueing(calls[id].items[1..])]
  }

  function NextCalls(s: State, step: Step): map<string, Call> {
    match step
    case CreateStep(req, _, _, _, _, _, _) =>
      if Created(s, step).None? then s.calls
      else
        var (row, news) := Created(s, step).value;
        s.calls[row.id := FirstCall(req, row, news)]
    case RegisterStep(id) => if CanRegister(s, id) then s.calls[id := Enqueueing(s.calls[id].items)] else s.calls
    case EnqueueStep(id) => AfterOffer(s.calls, id)
    case EnqueueFailStep(id) => s.calls - {id}
    case FinishStep(id, _, _) => s.calls - {id}
    case _ => s.calls
  }

  function NextQueue(s: State, step: Step): seq<Item> {
    match step
    case EnqueueStep(id) => if CanEnqueue(s, id) then s.queue + [s.calls[id].items[0]] else s.queue
    case WorkerStep(_, act) => if act.Dequeue? && s.queue != [] then s.queue[1..] else s.queue
    case _ => s.queue
  }

  // ---------------------------------------------------------------- what progressMu protects

  function NextProgress(s: State, step: Step): map<string, Progress> {
    match step
    case RegisterStep(id) =>
      if CanRegister(s, id) then s.progress[id := Registered(s.calls[id].transition, |s.calls[id].items|)]
      else s.progress
    case AbortStep(id, now) => AfterAbort(s.progress, id, now)
    case WorkerStep(w, act) =>
      if act.Mark? then AfterMark(s.progress, TransitionOf(s, w), act.now)
      else if act.Record? then AfterRecord(s.progress, TransitionOf(s, w), OutcomeAt(At(s, w)))
      else s.progress
    case _ => s.progress
  }

  function AfterClosing(progress: map<string, Progress>, closed: map<string, Closing>, id: string, o: TaskState,
                        now: Time, w: nat): map<string, Closing>
  {
    if FinalOf(progress, id, o, now).Some? then closed[id := Closing(Closed(Counted(progress[id], o), now), w)]
      else closed
  }

  function NextClosed(s: State, step: Step): map<string, Closing> {
    if step.WorkerStep? && step.act.Record?
      then AfterClosing(s.progress, s.closed, TransitionOf(s, step.w), OutcomeAt(At(s, step.w)), step.act.now, step.w)
    else s.closed
  }

  function NextMarkers(s: State, step: Step): map<string, string> {
    if step.WorkerStep? && step.act.Mark? && MarkOf(s.progress, TransitionOf(s, step.w), step.act.now).Persist?
      then s.markers[TransitionOf(s, step.w) := TaskOf(s, step.w)]
    else s.markers
  }

  function NextCanceled(s: State, step: Step): set<string> {
    match step
    case EnqueueFailStep(id) => s.canceled + {id}
    case AbortStep(id, _) => s.canceled + {id}
    case WorkerStep(w, act) =>
      if act.Record? && FinalOf(s.progress, TransitionOf(s, w), OutcomeAt(At(s, w)), act.now).Some?
        then s.canceled + {TransitionOf(s, w)}
      else s.canceled
    case _ => s.canceled
  }

  function NextAborts(s: State, step: Step): map<string, Transition> {
    match step
    case AbortStep(id, now) =>
      if Abortable(s.progress, id) then s.aborts[id := Aborted(s.progress[id], now).transition] else s.aborts
    case AbortWriteStep(id, _, _) => s.aborts - {id}
    case _ => s.aborts
  }

  // ---------------------------------------------------------------- executeTask

  function ResultOf(r: CallResult, detail: string): Ending {
    match r
    case Ok => Success
    case Retryable => FailedBy(detail)
    case Fatal => FailedBy(detail)
    case Expired => CanceledBy(detail)
  }

  /** What the retry loop does with the result of the `n`-th `ExecutePowerAction` call. */
  function AfterExecute(l: Limits, op: Operation, n: nat, r: CallResult, detail: string): Stage {
    if AfterCall(l.attempts, n, r).Sleep? then BackingOff(n)
    else if !r.Ok? then Completing(n, "", ResultOf(r, detail))
    else if ExpectedState(op).None? then Completing(n, "", FailedBy("unsupported operation"))
    else Verifying(n, "", 0)
  }

  /** One successful `ReadPowerState`; a mismatch is followed by the poll timer unless the deadline comes first. */
  function AfterRead(op: Operation, attempts: nat, done: nat, power: string, timedOut: bool): Stage {
    var last := TrimSpace(power);
    if ExpectedState(op).Some? && EqualFold(last, ExpectedState(op).value) then Completing(attempts, last, Success)
    else if timedOut then Completing(attempts, last, FailedBy("verification timed out"))
    else Verifying(attempts, last, done + 1)
  }

  /** The row completeTask writes: the outcome, with the SMD update if there is an updater. */
  function SettledRow(l: Limits, wk: Worker, patched: bool, now: Time): Task
    requires wk.Busy? && wk.at.Completing?
  {
    var task := wk.task.(attemptCount := wk.at.attempts, finalPowerState := TrimSpace(wk.at.power),
                         completedAt := Some(now), updatedAt := now);
    match wk.at.result
    case CanceledBy(detail) => task.(state := Canceled, errorDetail := TrimSpace(detail))
    case FailedBy(detail) => task.(state := Failed, errorDetail := TrimSpace(detail))
    case Success =>
      if SMDAnswer(l, wk, patched).1.Some? then task.(state := Failed, errorDetail := "updating SMD state")
      else task.(state := Succeeded)
  }

  function MarkedStage(m: Mark): Stage {
    if m.Persist? then MarkingRunning(m.snapshot) else Marked
  }

  /** The stage a busy worker is at after an action that it can take and that leaves it its item. */
  function NextStage(s: State, wk: Worker, act: Action): Stage
    requires wk.Busy?
  {
    match act
    case Dequeue | Exit | Release => wk.at
    case Mark(now) => MarkedStage(MarkOf(s.progress, wk.item.transitionID, now))
    case RunningWrite(_, _) => Marked
    case Check(_) =>
      if ContextEnded(s, wk.item.transitionID) then Completing(0, "", CanceledBy("context canceled")) else Announcing
    case Announce(_, _) => Acquiring
    case Acquire => Executing(1)
    case AcquireCanceled => Completing(0, "", CanceledBy("context canceled"))
    case Execute(r, detail) =>
      if wk.at.Executing? then AfterExecute(s.limits, wk.item.operation, wk.at.attempt, r, detail) else wk.at
    case Wake(interrupted) =>
      if !wk.at.BackingOff? then wk.at
      else if interrupted then Completing(wk.at.attempt, "", CanceledBy("context ended"))
      else Executing(wk.at.attempt + 1)
    case Read(power, timedOut) =>
      if wk.at.Verifying? then AfterRead(wk.item.operation, wk.at.attempts, wk.at.done, power, timedOut) else wk.at
    case ReadError(detail, contextEnded) =>
      if !wk.at.Verifying? then wk.at
      else Completing(wk.at.attempts, wk.at.last, if contextEnded then CanceledBy(detail) else FailedBy(detail))
    case Settle(patched, now) =>
      if wk.at.Completing? then Writing(SettledRow(s.limits, wk, patched, now)) else wk.at
    case TaskWrite(now, fault) =>
      if wk.at.Writing? then Recording(SavedRow(s.db, wk.at.row, now, fault).state) else wk.at
    case Record(now) => RecordedStage(FinalOf(s.progress, wk.item.transitionID, OutcomeAt(wk.at), now))
    case FinalWrite(_, _) => Releasing
  }

  function RecordedStage(final: Option<Transition>): Stage {
    if final.Some? then Finalizing(final.value) else Releasing
  }

  /** executeTask's local copy of the task. */
  function NextTask(s: State, wk: Worker, act: Action): Task
    requires wk.Busy?
  {
    match act
    case Check(now) =>
      if ContextEnded(s, wk.item.transitionID) then wk.task
      else wk.task.(state := Running, startedAt := Some(now), updatedAt := now)
    case Announce(now, fault) => SavedRow(s.db, wk.task, now, fault)
    case _ => wk.task
  }

  function NextWorker(s: State, wk: Worker, act: Action): Worker {
    if act.Exit? then Exited
    else if act.Dequeue? then if s.queue == [] then wk else Busy(s.queue[0], s.queue[0].task, "", Fetched)
    else if !wk.Busy? then wk
    else if act.Release? || GivesUpTask(s, wk, act) then Idle
    else Busy(wk.item, NextTask(s, wk, act), if act.Acquire? then TrimSpace(wk.task.bmcID) else wk.held,
              NextStage(s, wk, act))
  }

  function NextWorkers(s: State, step: Step): seq<Worker> {
    if step.WorkerStep? && step.w < |s.workers|
      then s.workers[step.w := NextWorker(s, s.workers[step.w], step.act)]
    else s.workers
  }

  function NextLimiters(s: State, step: Step): map<string, nat> {
    if !step.WorkerStep? || !IsBusy(s, step.w) then s.limiters
    else if step.act.Acquire? then
      var b := TrimSpace(s.workers[step.w].task.bmcID);
      if b == "" then s.limiters else s.limiters[b := Occupancy(s.limiters, b) + 1]
    else if step.act.Release? then
      var b := s.workers[step.w].held;
      if b == "" || Occupancy(s.limiters, b) == 0 then s.limiters else s.limiters[b := s.limiters[b] - 1]
    else s.limiters
  }

  // ---------------------------------------------------------------- the transition relation

  function Apply(s: State, step: Step): State {
    State(s.limits, NextDb(s, step), NextMade(s, step), NextPlaces(s, step), NextWork(s, step), NextCalls(s, step),
          NextProgress(s, step), NextClosed(s, step), NextMarkers(s, step), NextCanceled(s, step), NextAborts(s, step),
          NextQueue(s, step), s.queueClosed || step.CloseStep?, s.shutdown || step.ShutdownStep?,
          NextWorkers(s, step), NextLimiters(s, step))
  }

  lemma Components(s: State, step: Step)
    ensures var s' := Apply(s, step);
            && s'.limits == s.limits && s'.db == NextDb(s, step) && s'.made == NextMade(s, step)
            && s'.places == NextPlaces(s, step) && s'.work == NextWork(s, step) && s'.calls == NextCalls(s, step)
            && s'.progress == NextProgress(s, step) && s'.closed == NextClosed(s, step)
            && s'.aborts == NextAborts(s, step) && s'.queue == NextQueue(s, step)
            && s'.workers == NextWorkers(s, step) && s'.limiters == NextLimiters(s, step)
            && s'.shutdown == (s.shutdown || step.ShutdownStep?)
            && s'.queueClosed == (s.queueClosed || step.CloseStep?)
  {
    hide NextDb, NextMade, NextPlaces, NextWork, NextCalls, NextProgress, NextClosed, NextMarkers, NextCanceled,
         NextAborts, NextQueue, NextWorkers, NextLimiters;
  }

  /** Each step leads from one of the states to the next. */
  ghost predicate Path(steps: seq<Step>, states: seq<State>) {
    && |states| == |steps| + 1
    && forall i {:trigger steps[i]} :: 0 <= i < |steps| ==>
         Enabled(states[i], steps[i]) && states[i + 1] == Apply(states[i], steps[i])
  }

  /** `s'` is reached from `s` by `steps`. */
  ghost predicate Continues(s: State, steps: seq<Step>, s': State) {
    exists states :: Path(steps, states) && states[0] == s && states[|steps|] == s'
  }

  /** A run of the engine from its initial state. */
  ghost predicate Run(l: Limits, steps: seq<Step>, s: State) {
    Continues(Init(l), steps, s)
  }

  lemma NoStep(s: State, s': State)
    ensures Continues(s, [], s') <==> s == s'
  {
    hide Apply, Enabled;
    if s == s' {
      assert Path([], [s]);
    }
  }

  /** The states a run of the engine goes through. */
  ghost predicate Course(l: Limits, steps: seq<Step>, states: seq<State>) {
    Path(steps, states) && states[0] == Init(l)
  }

  function EndOf(l: Limits, states: seq<State>): State {
    if states == [] then Init(l) else states[|states| - 1]
  }

  lemma CourseRun(l: Limits, steps: seq<Step>, states: seq<State>)
    requires Course(l, steps, states)
    ensures Run(l, steps, EndOf(l, states)) && |states| == |steps| + 1
    ensures steps == [] ==> EndOf(l, states) == Init(l)
  {
    hide Enabled, Apply, Init;
  }

  /** A path that is not over at once is a shorter path and one more step. */
  lemma PathPrefix(steps: seq<Step>, states: seq<State>)
    requires steps != [] && Path(steps, states)
    ensures var n := |steps| - 1;
            Path(steps[..n], states[..n + 1]) && Enabled(states[n], steps[n]) &&
            states[n + 1] == Apply(states[n], steps[n])
  {
    hide Enabled, Apply;
    var n := |steps| - 1;
    assert steps[n] == steps[n];
    assert forall i :: 0 <= i < n ==> steps[..n][i] == steps[i];
  }

  lemma CourseStep(l: Limits, steps: seq<Step>, states: seq<State>)
    returns (front: seq<Step>, before: seq<State>, step: Step)
    requires Course(l, steps, states) && steps != []
    ensures steps == front + [step] && states == before + [EndOf(l, states)] && Course(l, front, before)
    ensures Enabled(EndOf(l, before), step) && EndOf(l, states) == Apply(EndOf(l, before), step)
    ensures |before| == |front| + 1
  {
    hide Enabled, Apply, Init;
    var n := |steps| - 1;
    PathPrefix(steps, states);
    front, before, step := steps[..n], states[..n + 1], steps[n];
  }

  lemma Whole(l: Limits, states: seq<State>)
    requires states != []
    ensures states == states[..|states| - 1] + [EndOf(l, states)]
  {
    hide Init;
  }

  lemma LastStep(s: State, steps: seq<Step>, s': State) returns (front: seq<Step>, before: State, step: Step)
    requires steps != [] && Continues(s, steps, s')
    ensures steps == front + [step] && Continues(s, front, before) && Enabled(before, step) && s' == Apply(before, step)
  {
    hide Enabled, Apply;
    var n := |steps| - 1;
    var states :| Path(steps, states) && states[0] == s && states[|steps|] == s';
    front, before, step := steps[..n], states[n], steps[n];
    PathPrefix(steps, states);
    assert states[..n + 1][n] == before;
  }

  lemma OneStepMore(s: State, steps: seq<Step>, before: State, step: Step)
    requires Continues(s, steps, before) && Enabled(before, step)
    ensures Continues(s, steps + [step], Apply(before, step))
  {
    hide Enabled, Apply;
    var states :| Path(steps, states) && states[0] == s && states[|steps|] == before;
    var more := states + [Apply(before, step)];
    assert Path(steps + [step], more) by {
      forall i | 0 <= i < |steps + [step]|
        ensures Enabled(more[i], (steps + [step])[i]) && more[i + 1] == Apply(more[i], (steps + [step])[i])
      {
        assert i < |steps| ==> (steps + [step])[i] == steps[i];
      }
    }
  }
}
