/** What was really done for a task: every request carries the route it was created with, calls follow the retry policy,
    and an outcome is recorded only on the evidence the runner had. */
module Evidence {
  import opened Text
  import opened Records
  import opened PowerStates
  import opened Retry
  import opened TransitionStore
  import opened Sections
  import opened Engine
  import opened Placement

  /** Identity, route, operation and creation time of a task; executeTask never changes them. */
  predicate SameRoute(a: Task, b: Task) {
    && a.id == b.id && a.transitionID == b.transitionID && a.nodeID == b.nodeID && a.bmcID == b.bmcID
    && a.bmcEndpoint == b.bmcEndpoint && a.credentialID == b.credentialID
    && a.insecureSkipVerify == b.insecureSkipVerify
    && a.operation == b.operation && a.dryRun == b.dryRun && a.queuedAt == b.queuedAt && a.createdAt == b.createdAt
  }

  predicate TidyRoute(t: Task) {
    && Trimmed(t.id) && t.id != "" && Trimmed(t.transitionID) && t.transitionID != ""
    && Trimmed(t.nodeID) && t.nodeID != "" && Trimmed(t.bmcID) && Trimmed(t.bmcEndpoint) && Trimmed(t.operation)
  }

  /** Each request made for the task is the one its creation prescribes. */
  ghost predicate Routed(m: Made, k: Work) {
    && |k.requests| == |k.calls|
    && forall i :: 0 <= i < |k.requests| ==> k.requests[i] == RequestFor(m.task.transitionID, m.task, m.operation)
  }

  predicate LastOk(calls: seq<CallResult>) {
    calls != [] && calls[|calls| - 1].Ok?
  }

  /** The node was seen in the state the operation asks for, after the executor accepted the operation. */
  ghost predicate Reached(m: Made, k: Work, power: string) {
    && LastOk(k.calls)
    && ExpectedState(m.operation).Some?
    && Trimmed(power) && EqualFold(power, ExpectedState(m.operation).value)
  }

  /** And SMD was told, if it is to be told. */
  ghost predicate Proven(l: Limits, m: Made, k: Work, power: string) {
    && Reached(m, k, power)
    && (l.updater && !m.task.dryRun ==> k.patched.Some? && k.patched == ComponentState(power))
  }

  /** Which outcomes the executor's answers leave open: none without a call but canceled; after a failure that one;
      after an interrupted wait canceled; and any after success, when verification and SMD decide. */
  predicate Verdict(attempts: int, calls: seq<CallResult>, o: TaskState) {
    if calls == [] then o.Canceled?
    else
      match calls[|calls| - 1]
      case Ok => true
      case Fatal => o.Failed?
      case Expired => o.Canceled?
      case Retryable => if |calls| == attempts then o.Failed? else o.Canceled?
  }

  function StateOf(e: Ending): TaskState {
    match e
    case Success => Succeeded
    case CanceledBy(_) => Canceled
    case FailedBy(_) => Failed
  }

  ghost predicate RowOK(l: Limits, m: Made, k: Work, row: Task) {
    && SameRoute(row, m.task) && row.completedAt.Some?
    && Verdict(l.attempts, k.calls, row.state)
    && (row.state.Succeeded? || row.state.Failed? || row.state.Canceled?)
    && row.attemptCount == |k.calls|
    && (k.calls == [] || Finished(l.attempts, k.calls))
    && (row.state.Succeeded? ==> Proven(l, m, k, row.finalPowerState))
    && (k.late ==> k.calls == [] && row.state.Canceled?)
    && (k.announced.Untried? ==> k.calls == [])
  }

  /** A task that no worker has. */
  ghost predicate RestOK(l: Limits, m: Made, k: Work, p: Place) {
    && TidyRoute(m.task)
    && Routed(m, k)
    && (p.Waiting? || p.Queued? ==> k.calls == [] && k.row.None? && !k.late && m.task.state.Pending?)
    && (p.Held? || p.Dropped? ==> m.task.state.Pending?)
    && (m.task.state.Pending? && p.Done? ==>
          k.row.Some? && k.row.value.state == p.outcome && RowOK(l, m, k, k.row.value) && !k.recorded.Untried?)
    && (!m.task.state.Pending? ==>
          p == Done(m.task.state) && (m.task.state.Failed? || m.task.state.Planned?) && k.calls == [] && !k.late)
    && (p.Dropped? ==> k.calls == [])
    && (p.Waiting? || p.Queued? || p.Dropped? || !m.task.state.Pending? ==> k.announced.Untried? && k.recorded.Untried?)
  }

  /** When the write that announces the task has been tried. */
  predicate Announced(at: Stage, k: Work) {
    && (at.Fetched? || at.MarkingRunning? || at.Marked? || at.Announcing? ==> k.announced.Untried?)
    && (at.Acquiring? || at.Executing? || at.BackingOff? || at.Verifying? ==> !k.announced.Untried?)
    && (at.Completing? && k.announced.Untried? ==> k.calls == [])
  }

  /** What a task that a worker has says by the stage the worker is at. */
  ghost predicate StageOK(l: Limits, at: Stage, m: Made, k: Work) {
    && (!at.Recording? ==> k.row.None? && k.recorded.Untried?)
    && Announced(at, k)
    && match at {
         case Fetched => k.calls == []
         case MarkingRunning(snapshot) => k.calls == []
         case Marked => k.calls == []
         case Announcing => k.calls == [] && !k.late
         case Acquiring => k.calls == [] && !k.late
         case Executing(n) => !k.late && 1 <= n <= l.attempts && |k.calls| == n - 1 && AllRetryable(k.calls)
         case BackingOff(n) => !k.late && 1 <= n < l.attempts && |k.calls| == n && AllRetryable(k.calls)
         case Verifying(n, last, done) =>
           && !k.late && |k.calls| == n && Finished(l.attempts, k.calls) && LastOk(k.calls) && done < l.polls
           && ExpectedState(m.operation).Some? && Trimmed(last)
         case Completing(n, power, result) =>
           && |k.calls| == n && (n == 0 || Finished(l.attempts, k.calls)) && Trimmed(power)
           && Verdict(l.attempts, k.calls, StateOf(result))
           && (result.Success? ==> Reached(m, k, power))
           && (k.late ==> n == 0 && result.CanceledBy?)
         case Writing(row) => RowOK(l, m, k, row)
         case Recording(o) =>
           k.row.Some? && k.row.value.state == o && RowOK(l, m, k, k.row.value) && !k.recorded.Untried?
         case Finalizing(_) => false
         case Releasing => false
       }
  }

  /** A worker that has task `m` knows it by its route, and its stage fits what was done for it. */
  ghost predicate DutyOK(l: Limits, wk: Worker, m: Made, k: Work) {
    && wk.Busy? && SameRoute(wk.task, m.task) && (wk.at.Announcing? ==> wk.task.state.Running?)
    && wk.item.operation == m.operation && wk.item.transitionID == m.task.transitionID
    && StageOK(l, wk.at, m, k)
  }

  ghost predicate TaskOK(s: State, t: string) {
    && t in s.made && t in s.work && t in s.places
    && RestOK(s.limits, s.made[t], s.work[t], s.places[t])
    && (s.places[t].Held? ==>
          && s.places[t].worker < |s.workers|
          && DutyOK(s.limits, s.workers[s.places[t].worker], s.made[t], s.work[t])
          && (s.work[t].late ==> ContextEnded(s, s.made[t].task.transitionID)))
  }

  ghost predicate Evident(s: State) {
    forall t :: t in s.made ==> TaskOK(s, t)
  }

  // ---------------------------------------------------------------- what the database returns

  /** What the completion of a task writes beside its route. */
  predicate SameEnding(a: Task, b: Task) {
    && a.state == b.state && a.attemptCount == b.attemptCount && a.completedAt == b.completedAt
    && a.finalPowerState == TrimSpace(b.finalPowerState)
  }

  /** A row that comes back from the database, trimmed, is supported by the same evidence. */
  lemma RowComesBack(l: Limits, m: Made, k: Work, row: Task, saved: Task)
    requires RowOK(l, m, k, row) && SameRoute(saved, row) && SameEnding(saved, row)
    ensures RowOK(l, m, k, saved)
  {
    hide EqualFold, ComponentState, Finished;
  }

  lemma CleanKeepsRoute(t: Task)
    requires TidyRoute(t)
    ensures SameRoute(CleanTask(t), t) && SameEnding(CleanTask(t), t)
  {
    hide TrimSpace;
  }

  lemma UpdateTaskReturns(db: Database, t: Task, now: Time, fault: Fault)
    requires TidyRoute(t)
    ensures var (_, r) := UpdateTask(db, t, now, fault);
            r.Ok? ==> SameRoute(r.value, t) && SameEnding(r.value, t)
  {
    hide TrimSpace, Trimmed, CleanTask, TaskResultEvent, Updatable, UpdatedTaskRow;
    CleanKeepsRoute(t);
  }

  // ---------------------------------------------------------------- from stage to stage

  lemma ExecuteStage(l: Limits, m: Made, k: Work, n: nat, r: CallResult, detail: string, q: ExecutionRequest)
    requires l.polls > 0 && StageOK(l, Executing(n), m, k)
    ensures StageOK(l, AfterExecute(l, m.operation, n, r, detail), m,
                    k.(calls := k.calls + [r], requests := k.requests + [q]))
  {
    hide Apply;
    assert (k.calls + [r])[..|k.calls|] == k.calls;
  }

  lemma WakeStage(l: Limits, m: Made, k: Work, n: nat)
    requires StageOK(l, BackingOff(n), m, k)
    ensures StageOK(l, Executing(n + 1), m, k)
    ensures StageOK(l, Completing(n, "", CanceledBy("context ended")), m, k)
  {
  }

  lemma ReadStage(l: Limits, m: Made, k: Work, n: nat, last: string, done: nat, power: string, timedOut: bool)
    requires StageOK(l, Verifying(n, last, done), m, k)
    requires timedOut || done + 1 < l.polls || EqualFold(TrimSpace(power), ExpectedState(m.operation).value)
    ensures StageOK(l, AfterRead(m.operation, n, done, power, timedOut), m, k)
  {
    hide EqualFold;
  }

  lemma ReadErrorStage(l: Limits, m: Made, k: Work, n: nat, last: string, done: nat, result: Ending)
    requires StageOK(l, Verifying(n, last, done), m, k) && !result.Success?
    ensures StageOK(l, Completing(n, last, result), m, k)
  {
    hide EqualFold;
  }

  /** The row a worker writes at the end has the evidence of its outcome: a failure or a cancellation needs none, and a
      verified outcome is a success unless SMD has to be told and refuses. */
  lemma SettledStage(l: Limits, wk: Worker, m: Made, k: Work, patched: bool, now: Time)
    requires DutyOK(l, wk, m, k) && wk.at.Completing?
    ensures StageOK(l, Writing(SettledRow(l, wk, patched, now)), m, k.(patched := SMDAnswer(l, wk, patched).0))
  {
    hide TrimSpace, ComponentState, EqualFold, Finished, ExpectedState;
    assert TrimSpace(wk.at.power) == wk.at.power;
  }

  lemma RowIgnoresWrite(l: Limits, m: Made, k: Work, row: Task, saved: Task, a: Attempt)
    requires RowOK(l, m, k, row)
    ensures RowOK(l, m, k.(row := Some(saved), recorded := a), row)
  {
  }

  lemma WrittenStage(l: Limits, m: Made, k: Work, row: Task, saved: Task, a: Attempt)
    requires StageOK(l, Writing(row), m, k) && RowOK(l, m, k, saved) && !a.Untried?
    ensures StageOK(l, Recording(saved.state), m, k.(row := Some(saved), recorded := a))
  {
    RowIgnoresWrite(l, m, k, saved, saved, a);
    hide RowOK, Reached;
  }

  // ---------------------------------------------------------------- a task that does not change hands

  /** Task `u` is as it was, and so is the worker that has it, if one has. */
  ghost predicate Unmoved(s: State, s': State, u: string) {
    && s'.limits == s.limits && s'.made == s.made && s'.places.Keys == s.places.Keys && s'.work.Keys == s.work.Keys
    && s.canceled <= s'.canceled && (s.shutdown ==> s'.shutdown)
    && (u in s.work && u in s'.work ==> s'.work[u] == s.work[u])
    && (u in s.places && u in s'.places ==>
          && s'.places[u] == s.places[u]
          && (s.places[u].Held? && s.places[u].worker < |s.workers| ==>
                |s'.workers| == |s.workers| && s'.workers[s.places[u].worker] == s.workers[s.places[u].worker]))
  }

  lemma UnmovedTask(s: State, s': State, u: string)
    requires TaskOK(s, u) && Unmoved(s, s', u)
    ensures TaskOK(s', u)
  {
    hide DutyOK, RestOK;
  }

  /** The task that the action is about. */
  function Subject(s: State, w: nat, act: Action): string {
    if act.Dequeue? && s.queue != [] then s.queue[0].task.id else TaskOf(s, w)
  }

  /** Whether an action leaves task `u` alone. */
  ghost predicate NotAbout(s: State, w: nat, act: Action, u: string) {
    u == Subject(s, w, act) ==> act.FinalWrite? || act.Release? || act.Exit?
  }

  lemma OtherRecords(s: State, w: nat, act: Action, u: string)
    requires w < |s.workers| && NotAbout(s, w, act, u)
    ensures var places, work := WorkerPlaces(s, w, act), WorkerWork(s, w, act);
            && (u in s.places && u in places ==> places[u] == s.places[u])
            && (u in s.work && u in work ==> work[u] == s.work[u])
  {
    hide GivesUpTask, NextNote, OutcomeAt, ContextEnded;
    NeverGivesUp(s, w, act);
  }

  lemma OtherHolder(s: State, w: nat, act: Action, u: string)
    requires WorkersOK(s.places, s.workers) && CanAct(s, w, act) && NotAbout(s, w, act, u)
    ensures u in s.places && s.places[u].Held? ==> s.places[u].worker != w
  {
    hide CanAcquire, ContextEnded, TrimSpace, EqualFold;
    if u in s.places && s.places[u].Held? {
      assert Holds(s.workers, s.places[u].worker, u);
    }
  }

  lemma OtherUnmoved(s: State, w: nat, act: Action, u: string)
    requires Placed(s) && CanAct(s, w, act) && NotAbout(s, w, act, u)
    ensures Unmoved(s, Apply(s, WorkerStep(w, act)), u)
  {
    hide NextDb, NextCalls, NextProgress, NextClosed, NextMarkers, NextAborts, NextQueue, NextLimiters, CanAct,
         NextWorker, FinalOf, WorkerPlaces, WorkerWork, Known, AllKnown, QueueOK, CallsOK, WaitingFound, WorkersOK,
         Named, NotAbout, OutcomeAt, News;
    WorkerKeys(s, w, act);
    OtherRecords(s, w, act, u);
    OtherHolder(s, w, act, u);
  }

  lemma NeverGivesUp(s: State, w: nat, act: Action)
    ensures w < |s.workers| && !act.Mark? && !act.RunningWrite? ==> !GivesUpTask(s, s.workers[w], act)
  {
  }

  // ---------------------------------------------------------------- calls

  /** A task that waits may be offered or dropped. */
  lemma OfferedRest(l: Limits, m: Made, k: Work, p: Place)
    requires RestOK(l, m, k, Waiting) && (p.Queued? || p.Dropped?)
    ensures RestOK(l, m, k, p)
  {
    hide RowOK, Routed, TidyRoute;
  }

  lemma CallPlaces(s: State, step: Step, u: string)
    requires Placed(s) && Enabled(s, step) && !step.CreateStep? && !step.WorkerStep? && u in s.places
    ensures var p := NextPlaces(s, step);
            u in p && (p[u] == s.places[u] || (s.places[u] == Waiting && (p[u] == Queued || p[u] == Dropped)))
  {
    hide DropAll, Known, AllKnown, QueueOK, CallsOK, WaitingFound, WorkersOK, Named;
    if step.EnqueueStep? {
      FirstOffered(s, step.id);
    } else if step.EnqueueFailStep? {
      GivesUp(s, step.id);
    }
  }

  lemma CallTask(s: State, step: Step, u: string)
    requires Placed(s) && Enabled(s, step) && !step.CreateStep? && !step.WorkerStep? && TaskOK(s, u)
    ensures TaskOK(Apply(s, step), u)
  {
    hide NextDb, NextPlaces, NextCalls, NextProgress, NextClosed, NextMarkers, NextAborts, NextQueue, NextLimiters,
         Placed, DutyOK, RestOK;
    CallPlaces(s, step, u);
    if NextPlaces(s, step)[u] != s.places[u] {
      OfferedRest(s.limits, s.made[u], s.work[u], NextPlaces(s, step)[u]);
    }
  }

  // ---------------------------------------------------------------- a worker's own task

  lemma RouteItself(t: Task)
    ensures SameRoute(t, t)
  {
  }

  /** What the store hands back is the same task. */
  lemma SavedRoute(db: Database, t: Task, m: Task, now: Time, fault: Fault)
    requires SameRoute(t, m) && TidyRoute(m)
    ensures TidyRoute(t) && SameRoute(SavedRow(db, t, now, fault), m)
    ensures SameEnding(SavedRow(db, t, now, fault), t) || SavedRow(db, t, now, fault) == t
  {
    hide UpdateTask, Trimmed, SameEnding;
    UpdateTaskReturns(db, t, now, fault);
  }

  lemma SavedOK(l: Limits, m: Made, k: Work, db: Database, row: Task, now: Time, fault: Fault)
    requires RowOK(l, m, k, row) && TidyRoute(m.task)
    ensures RowOK(l, m, k, SavedRow(db, row, now, fault))
  {
    hide UpdateTask, SavedRow, TidyRoute, SameEnding, SameRoute, RowOK;
    RowRoute(l, m, k, row);
    SavedRoute(db, row, m.task, now, fault);
    UpdateTaskReturns(db, row, now, fault);
    if SavedRow(db, row, now, fault) != row {
      SavedIs(db, row, now, fault);
      RowComesBack(l, m, k, row, SavedRow(db, row, now, fault));
    }
  }

  lemma SavedIs(db: Database, t: Task, now: Time, fault: Fault)
    ensures SavedRow(db, t, now, fault) == t ||
            (UpdateTask(db, t, now, fault).1.Ok? &&
             SavedRow(db, t, now, fault) == UpdateTask(db, t, now, fault).1.value)
  {
    hide UpdateTask;
  }

  lemma RowRoute(l: Limits, m: Made, k: Work, row: Task)
    requires RowOK(l, m, k, row)
    ensures SameRoute(row, m.task)
  {
    hide Proven;
  }

  /** The local copy keeps its route, and says running once it is to be announced. */
  lemma TaskStep(s: State, wk: Worker, m: Made, k: Work, act: Action)
    requires DutyOK(s.limits, wk, m, k) && TidyRoute(m.task)
    ensures SameRoute(NextTask(s, wk, act), m.task)
    ensures act.Check? && !ContextEnded(s, wk.item.transitionID) ==> NextTask(s, wk, act).state.Running?
  {
    hide SavedRow, StageOK, ContextEnded, TidyRoute;
    if act.Announce? {
      SavedRoute(s.db, wk.task, m.task, act.now, act.fault);
    }
  }

  /** The worker's next stage fits what was done for its task. */
  lemma StageStep(s: State, w: nat, act: Action, m: Made, k: Work)
    requires CanAct(s, w, act) && DutyOK(s.limits, s.workers[w], m, k) && TidyRoute(m.task) && s.limits.attempts > 0
    requires s.limits.polls > 0 && (k.late ==> ContextEnded(s, m.task.transitionID))
    requires !act.Record?
    ensures StageOK(s.limits, NextStage(s, s.workers[w], act), m, NextNote(s, s.workers[w], k, act))
  {
    hide TrimSpace, EqualFold, UpdateTask, SavedRow, SettledRow, SMDAnswer, AfterExecute, AfterRead, MarkOf, SameRoute,
         TidyRoute, RowOK, Reached, ContextEnded, Apply;
    var wk := s.workers[w];
    if act.Execute? {
      ExecuteStage(s.limits, m, k, wk.at.attempt, act.result, act.detail,
                   RequestFor(wk.item.transitionID, wk.task, wk.item.operation));
    } else if act.Wake? {
      WakeStage(s.limits, m, k, wk.at.attempt);
    } else if act.Read? {
      ReadStage(s.limits, m, k, wk.at.attempts, wk.at.last, wk.at.done, act.power, act.timedOut);
    } else if act.ReadError? {
      ReadErrorStage(s.limits, m, k, wk.at.attempts, wk.at.last, wk.at.done,
                     if act.contextEnded then CanceledBy(act.detail) else FailedBy(act.detail));
    } else if act.Settle? {
      SettledStage(s.limits, wk, m, k, act.patched, act.now);
    } else if act.TaskWrite? {
      SavedOK(s.limits, m, k, s.db, wk.at.row, act.now, act.fault);
      WrittenStage(s.limits, m, k, wk.at.row, SavedRow(s.db, wk.at.row, act.now, act.fault),
                   Tried(UpdateTask(s.db, wk.at.row, act.now, act.fault).1));
    }
  }

  /** Each request repeats the route of the task. */
  lemma NoteStep(s: State, wk: Worker, m: Made, k: Work, act: Action)
    requires DutyOK(s.limits, wk, m, k) && Routed(m, k)
    ensures Routed(m, NextNote(s, wk, k, act)) && NextNote(s, wk, k, act).late == k.late
  {
    hide UpdateTask, SavedRow, SMDAnswer, StageOK;
    assert RequestFor(wk.item.transitionID, wk.task, wk.item.operation) ==
           RequestFor(m.task.transitionID, m.task, m.operation);
  }

  lemma HeldRest(l: Limits, m: Made, k: Work, w: nat)
    ensures RestOK(l, m, k, Held(w)) <==> TidyRoute(m.task) && Routed(m, k) && m.task.state.Pending?
  {
    hide TidyRoute, Routed, RowOK;
  }

  /** A worker that goes on with its task. */
  lemma GoesOn(s: State, w: nat, act: Action, m: Made, k: Work)
    requires CanAct(s, w, act) && DutyOK(s.limits, s.workers[w], m, k) && RestOK(s.limits, m, k, Held(w))
    requires ValidLimits(s.limits) && (k.late ==> ContextEnded(s, m.task.transitionID))
    requires !act.Record? && !GivesUpTask(s, s.workers[w], act)
    ensures var k' := NextNote(s, s.workers[w], k, act);
            && DutyOK(s.limits, NextWorker(s, s.workers[w], act), m, k') && RestOK(s.limits, m, k', Held(w))
            && k'.late == k.late
  {
    hide RestOK, Routed, TidyRoute, SameRoute, ContextEnded, NextTask, GivesUpTask, NextNote;
    var k' := NextNote(s, s.workers[w], k, act);
    HeldRest(s.limits, m, k, w);
    HeldRest(s.limits, m, k', w);
    NoteStep(s, s.workers[w], m, k, act);
    StageStep(s, w, act, m, k);
    TaskStep(s, s.workers[w], m, k, act);
    Announcing(s, w, act);
    hide StageOK, NextStage;
  }

  /** Only the check makes a task one that is to be announced. */
  lemma Announcing(s: State, w: nat, act: Action)
    requires CanAct(s, w, act) && IsBusy(s, w)
    ensures NextStage(s, s.workers[w], act).Announcing? ==>
              act.Check? && !ContextEnded(s, s.workers[w].item.transitionID)
    ensures !act.Dequeue? && !act.Exit? && (act.Release? ==> !Owns(s.workers[w]))
  {
    hide TrimSpace, EqualFold, MarkOf, FinalOf, SavedRow, SettledRow, ContextEnded, CanAcquire;
  }

  /** A worker that gives its task up before announcing it, or hands it in once its row is written. */
  lemma HandsOver(l: Limits, at: Stage, m: Made, k: Work, w: nat)
    requires StageOK(l, at, m, k) && RestOK(l, m, k, Held(w))
    ensures at.Fetched? || at.MarkingRunning? ==> RestOK(l, m, k, Dropped)
    ensures at.Recording? ==> RestOK(l, m, k, Done(OutcomeAt(at)))
  {
    hide RowOK, Routed, TidyRoute;
  }

  lemma FetchStage(l: Limits, m: Made, k: Work, w: nat, late: bool)
    requires RestOK(l, m, k, Queued)
    ensures StageOK(l, Fetched, m, k.(late := late)) && RestOK(l, m, k.(late := late), Held(w))
  {
    hide RowOK, TidyRoute;
  }

  lemma HeadTask(s: State, w: nat)
    requires Placed(s) && CanDequeue(s, w) && TaskOK(s, Subject(s, w, Dequeue))
    ensures TaskOK(Apply(s, WorkerStep(w, Dequeue)), Subject(s, w, Dequeue))
  {
    hide NextDb, NextCalls, NextProgress, NextClosed, NextMarkers, NextAborts, NextQueue, NextLimiters, StageOK, RestOK,
         Placed, SameRoute;
    var item := s.queue[0];
    HeadOfQueue(s);
    FetchStage(s.limits, s.made[item.task.id], s.work[item.task.id], w, ContextEnded(s, item.transitionID));
    RouteItself(item.task);
  }

  /** What the step leaves of the worker's task. */
  ghost predicate Handled(s: State, s': State, w: nat, act: Action) {
    var t := TaskOf(s, w);
    && w < |s.workers| == |s'.workers| && s'.workers[w] == NextWorker(s, s.workers[w], act)
    && t in s'.work && s'.work[t] == NextNote(s, s.workers[w], WorkOn(s.work, t), act)
    && t in s'.places && s'.places[t] == (if GivesUpTask(s, s.workers[w], act) then Dropped
                                          else if act.Record? then Done(OutcomeAt(At(s, w))) else Held(w))
    && s'.limits == s.limits && s'.made == s.made
    && forall id :: ContextEnded(s, id) ==> ContextEnded(s', id)
  }

  lemma OwnHandled(s: State, w: nat, act: Action)
    requires Owned(s, w) && !act.Dequeue? && !act.Exit?
    ensures Handled(s, Apply(s, WorkerStep(w, act)), w, act)
  {
    hide NextDb, NextCalls, NextProgress, NextClosed, NextMarkers, NextAborts, NextQueue, NextLimiters, NextNote,
         GivesUpTask, NextWorker, FinalOf, Known, News;
    Unnoted(s, s.workers[w], s.work[TaskOf(s, w)], act);
  }

  lemma OwnTask(s: State, w: nat, act: Action)
    requires Placed(s) && ValidLimits(s.limits) && CanAct(s, w, act) && TaskOK(s, TaskOf(s, w)) && Working(s, w)
    ensures TaskOK(Apply(s, WorkerStep(w, act)), TaskOf(s, w))
  {
    hide Apply, DutyOK, RestOK, Placed, Known, CanAct, NextNote, GivesUpTask, NextWorker, ContextEnded, OutcomeAt;
    Own(s, w);
    KnownKeys(s.made, s.workers[w].item);
    Announcing(s, w, act);
    OwnHandled(s, w, act);
    HandedOver(s, w, act);
    if !act.Record? && !GivesUpTask(s, s.workers[w], act) {
      GoesOn(s, w, act, s.made[TaskOf(s, w)], s.work[TaskOf(s, w)]);
    } else {
      Unnoted(s, s.workers[w], s.work[TaskOf(s, w)], act);
    }
  }

  /** The work of a task is only noted by four actions. */
  lemma Unnoted(s: State, wk: Worker, k: Work, act: Action)
    ensures !act.Announce? && !act.Execute? && !act.Settle? && !act.TaskWrite? ==> NextNote(s, wk, k, act) == k
  {
  }

  lemma HandedOver(s: State, w: nat, act: Action)
    requires CanAct(s, w, act) && IsBusy(s, w) && TaskOK(s, TaskOf(s, w)) && Owned(s, w)
    ensures var l, m, k := s.limits, s.made[TaskOf(s, w)], s.work[TaskOf(s, w)];
            if GivesUpTask(s, s.workers[w], act) then RestOK(l, m, k, Dropped) && (act.Mark? || act.RunningWrite?)
            else act.Record? ==> RestOK(l, m, k, Done(OutcomeAt(At(s, w))))
  {
    hide RestOK, StageOK, SameRoute, Known, MarkOf, Update;
    HandsOver(s.limits, At(s, w), s.made[TaskOf(s, w)], s.work[TaskOf(s, w)], w);
  }

  lemma StepEvident(s: State, step: Step)
    requires Placed(s) && ValidLimits(s.limits) && Evident(s) && Enabled(s, step) && !step.CreateStep?
    ensures Evident(Apply(s, step))
  {
    hide Apply, Placed, TaskOK, NotAbout, CanMove;
    SameMade(s, step);
    forall u | u in s.made ensures TaskOK(Apply(s, step), u) {
      assert TaskOK(s, u);
      if step.WorkerStep? {
        WorkerTask(s, step.w, step.act, u);
        assert step == WorkerStep(step.w, step.act);
      } else {
        CallTask(s, step, u);
      }
    }
  }

  lemma SameMade(s: State, step: Step)
    ensures !step.CreateStep? ==> Apply(s, step).made == s.made
  {
    hide NextDb, NextPlaces, NextWork, NextCalls, NextProgress, NextClosed, NextMarkers, NextCanceled, NextAborts,
         NextQueue, NextWorkers, NextLimiters;
  }

  lemma WorkerTask(s: State, w: nat, act: Action, u: string)
    requires Placed(s) && ValidLimits(s.limits) && TaskOK(s, u) && CanAct(s, w, act)
    ensures TaskOK(Apply(s, WorkerStep(w, act)), u)
  {
    hide Apply, Placed, TaskOK;
    if NotAbout(s, w, act, u) {
      OtherUnmoved(s, w, act, u);
      UnmovedTask(s, Apply(s, WorkerStep(w, act)), u);
    } else if act.Dequeue? {
      HeadTask(s, w);
      assert WorkerStep(w, act) == WorkerStep(w, Dequeue);
    } else {
      OwnsStill(s, w, act);
      OwnTask(s, w, act);
    }
  }

  lemma OwnsStill(s: State, w: nat, act: Action)
    requires CanAct(s, w, act)
    ensures !act.Dequeue? && !act.Exit? && !act.FinalWrite? && !act.Release? ==> Working(s, w)
  {
    hide TrimSpace, EqualFold, ContextEnded;
  }
}
