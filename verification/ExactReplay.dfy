/** In runs of the engine replay is exact: whatever the runner still has to write carries the stored `created_at`, so
    the outbox gives back both tables on every stored column; and it names the request that the transition was created
    for, so every row does. */
module ExactReplay {
  import opened Text
  import opened Records
  import opened Planning
  import opened TransitionStore
  import opened OutboxReplay
  import opened Sections
  import opened Engine
  import opened Placement
  import opened Ledger
  import opened Evidence
  import opened Trails
  import opened EngineInvariant
  import opened EngineSteps
  import opened Creation
  import opened EngineRuns

  // ---------------------------------------------------------------- one store call

  ghost predicate RowExact(db: Database, id: string) {
    id in db.transitions ==> id in Replayed(db.outbox) && Replayed(db.outbox)[id] == db.transitions[id]
  }

  ghost predicate ResultExact(db: Database, t: string) {
    t in db.tasks && Terminal(db.tasks[t].state) ==>
      t in ReplayedResults(db.outbox) && Columns(ReplayedResults(db.outbox)[t]) == db.tasks[t]
  }

  /** What a transition was created with and keeps. */
  datatype Origin = Origin(requestID: string, operation: string, requestedBy: string, dryRun: bool, targetCount: int,
                           queuedAt: Time, createdAt: Time)

  function OriginOf(t: Transition): Origin {
    Origin(t.requestID, t.operation, t.requestedBy, t.dryRun, t.targetCount, t.queuedAt, t.createdAt)
  }

  /** `d` is what row `id` was created with, if there is one. */
  predicate StoredOrigin(db: Database, id: string, d: Origin) {
    id in db.transitions ==> d == OriginOf(db.transitions[id])
  }

  predicate CleanRow(db: Database, id: string) {
    id in db.transitions ==>
      var row := db.transitions[id];
      Trimmed(row.requestID) && Trimmed(row.operation) && Trimmed(row.requestedBy)
  }

  lemma UpdateExact(db: Database, t: Transition, now: Time, fault: Fault, id: string)
    requires Trimmed(t.id) && RowExact(db, id) && (id == t.id ==> StoredOrigin(db, id, OriginOf(t)))
    ensures RowExact(Update(db, t, now, fault).0, id)
  {
    hide TrimSpace, Replayed, Trimmed;
    assert TrimSpace(t.id) == t.id;
    var after := Update(db, t, now, fault).0;
    if after.outbox != db.outbox {
      ReplayOne(db.outbox, after.outbox[|db.outbox|]);
    }
  }

  /** An update that carries what the row was created with leaves it in the row. */
  lemma UpdateOrigin(db: Database, t: Transition, now: Time, fault: Fault, id: string)
    requires Trimmed(t.id) && CleanRow(db, id) && (id == t.id ==> StoredOrigin(db, id, OriginOf(t)))
    ensures SameOrigin(db, Update(db, t, now, fault).0, id)
  {
    hide TrimSpace, Trimmed;
    assert TrimSpace(t.id) == t.id;
    if id == t.id && id in db.transitions {
      var row := db.transitions[id];
      assert TrimSpace(row.requestID) == row.requestID && TrimSpace(row.operation) == row.operation;
      assert TrimSpace(row.requestedBy) == row.requestedBy;
    }
  }

  predicate SameOrigin(db: Database, after: Database, id: string) {
    id in db.transitions ==> id in after.transitions && OriginOf(after.transitions[id]) == OriginOf(db.transitions[id])
  }

  lemma UpdateKeepsResult(db: Database, t: Transition, now: Time, fault: Fault, k: string)
    requires Trimmed(t.id) && ResultExact(db, k)
    ensures ResultExact(Update(db, t, now, fault).0, k)
  {
    hide Update, Sent;
    UpdateEffect(db, t, now, fault);
    ReplayOne(db.outbox, Lifecycle(t.id, Sent(t, now)));
  }

  lemma UpdateTaskKeepsRow(db: Database, u: Task, now: Time, fault: Fault, id: string)
    requires Trimmed(u.id) && RowExact(db, id)
    ensures RowExact(UpdateTask(db, u, now, fault).0, id) && SameOrigin(db, UpdateTask(db, u, now, fault).0, id)
  {
    hide UpdateTask, Written, TaskResultEvent, UpdatedTaskRow;
    UpdateTaskEffect(db, u, now, fault);
    var (after, r) := UpdateTask(db, u, now, fault);
    if r.Ok? && Terminal(u.state) {
      WrittenEvent(u, now);
      ReplayOne(db.outbox, TaskResultEvent(Written(u, now)).value);
    } else {
      assert after.outbox == db.outbox;
    }
  }

  /** The update of task `u` carries the stored creation time. */
  predicate StoredTaskDate(db: Database, u: Task) {
    u.id in db.tasks ==> u.createdAt == db.tasks[u.id].createdAt
  }

  lemma UpdateTaskExact(db: Database, u: Task, now: Time, fault: Fault, t: string)
    requires Trimmed(u.id) && ResultExact(db, t) && StoredTaskDate(db, u)
    ensures ResultExact(UpdateTask(db, u, now, fault).0, t)
  {
    hide UpdateTask, Written, TaskResultEvent, UpdatedTaskRow, Columns;
    UpdateTaskEffect(db, u, now, fault);
    UpdateTaskTrail(db, u, now, fault, t);
    var (after, r) := UpdateTask(db, u, now, fault);
    if r.Ok? && Terminal(u.state) {
      WrittenEvent(u, now);
      ReplayOne(db.outbox, TaskResultEvent(Written(u, now)).value);
      if t == u.id {
        TaskCreatedAtReplayed(db, u, now, fault);
        assert TrimSpace(t) == t;
      }
    } else if r.Ok? {
      assert after.outbox == db.outbox;
      if t == u.id {
        NotTerminal(db, u, r.value);
      }
    }
  }

  lemma NotTerminal(db: Database, u: Task, saved: Task)
    requires u.id in db.tasks && saved.state == u.state
    ensures UpdatedTaskRow(db.tasks[u.id], saved).state == u.state
  {
  }

  /** A creation is replayed exactly. */
  lemma CreateExact(db: Database, after: Database, row: Transition, news: seq<Task>, k: string)
    requires CreatesRows(db, after, row, news)
    ensures RowExact(db, k) ==> RowExact(after, k)
    ensures ResultExact(db, k) ==> ResultExact(after, k)
  {
    hide InsertTasks, CreationEvents, Columns, Tidy, Replayed, ReplayedResults;
    ReplayOne(db.outbox, Lifecycle(row.id, row));
    CreationReplay(db.outbox + [Lifecycle(row.id, row)], news, db.tasks, after.transitions, k);
    if k in db.tasks {
      InsertKeeps(db.tasks, after.transitions, news, k);
    }
  }

  // ---------------------------------------------------------------- where creation times come from

  ghost predicate Snapshot(workers: seq<Worker>, w: nat, id: string, d: Origin) {
    && w < |workers| && workers[w].Busy? && workers[w].item.transitionID == id
    && workers[w].at.MarkingRunning? && OriginOf(workers[w].at.snapshot) == d
  }

  predicate InEntries(progress: map<string, Progress>, closed: map<string, Closing>, id: string, d: Origin) {
    || (id in progress && OriginOf(progress[id].transition) == d)
    || (id in closed && OriginOf(closed[id].progress.transition) == d)
  }

  predicate InCalls(calls: map<string, Call>, id: string, d: Origin) {
    id in calls && !calls[id].Enqueueing? && OriginOf(calls[id].transition) == d
  }

  predicate InAborts(aborts: map<string, Transition>, id: string, d: Origin) {
    id in aborts && OriginOf(aborts[id]) == d
  }

  /** `d` is an origin that the runner has for transition `id` and may write. */
  ghost predicate Carried(s: State, id: string, d: Origin) {
    InEntries(s.progress, s.closed, id, d) || InCalls(s.calls, id, d) || InAborts(s.aborts, id, d) ||
      exists w :: Snapshot(s.workers, w, id, d)
  }

  lemma EntriesCarried(s: State, step: Step, id: string, d: Origin)
    requires Enabled(s, step) && InEntries(NextProgress(s, step), NextClosed(s, step), id, d)
    ensures Carried(s, id, d)
  {
    hide FinalState, CanAct, Snapshot;
  }

  lemma RestCarried(s: State, step: Step, id: string, d: Origin)
    requires Enabled(s, step) && !step.CreateStep?
    requires InCalls(NextCalls(s, step), id, d) || InAborts(NextAborts(s, step), id, d)
    ensures Carried(s, id, d)
  {
    hide CanAct, Snapshot;
  }

  /** Only marking takes a snapshot, and takes it from the entry. */
  lemma SnapshotCarried(s: State, step: Step, w: nat, id: string, d: Origin)
    requires Enabled(s, step) && Snapshot(NextWorkers(s, step), w, id, d)
    ensures Carried(s, id, d)
  {
    hide InCalls, InAborts;
    if By(step, w) {
      MarkSnapshot(s, w, step.act);
    } else {
      assert Snapshot(s.workers, w, id, d);
    }
  }

  lemma MarkSnapshot(s: State, w: nat, act: Action)
    requires CanAct(s, w, act)
    ensures var wk, wk' := WorkerAt(s.workers, w), NextWorker(s, WorkerAt(s.workers, w), act);
            wk'.Busy? && wk'.at.MarkingRunning? ==>
              && wk.Busy? && wk'.item == wk.item && wk.item.transitionID in s.progress
              && OriginOf(wk'.at.snapshot) == OriginOf(s.progress[wk.item.transitionID].transition)
  {
    hide TrimSpace, EqualFold, FinalOf, Update, SavedRow, SettledRow, ContextEnded, NextTask;
  }

  lemma StepCarries(s: State, step: Step, id: string, d: Origin)
    requires Enabled(s, step) && !step.CreateStep? && Carried(Apply(s, step), id, d)
    ensures Carried(s, id, d)
  {
    hide Enabled, NextDb, NextMade, NextPlaces, NextWork, NextCalls, NextProgress, NextClosed, NextMarkers,
         NextCanceled, NextAborts, NextQueue, NextWorkers, NextLimiters, InEntries, InCalls, InAborts, Snapshot;
    if InEntries(NextProgress(s, step), NextClosed(s, step), id, d) {
      EntriesCarried(s, step, id, d);
    } else if InCalls(NextCalls(s, step), id, d) || InAborts(NextAborts(s, step), id, d) {
      RestCarried(s, step, id, d);
    } else {
      var w :| Snapshot(NextWorkers(s, step), w, id, d);
      SnapshotCarried(s, step, w, id, d);
    }
  }

  // ---------------------------------------------------------------- replay of the transitions

  /** The row of `id` is the last one published, and whatever will be written for it has its origin. */
  ghost predicate Dated(s: State, id: string) {
    && RowExact(s.db, id) && CleanRow(s.db, id)
    && forall d :: Carried(s, id, d) ==> StoredOrigin(s.db, id, d)
  }

  /** What a step writes has an origin that is carried. */
  lemma WriteCarried(s: State, step: Step, id: string)
    requires Sound(s) && Enabled(s, step) && WritesFor(s, step, id)
    ensures Carried(s, id, OriginWritten(s, step))
  {
    hide Placed, Counts, Evident, Stored, Published, EntryOK, MarkerOK, UnderwayOK, Trail, TrailOf, KindWritten;
    WritesInTurn(s, step, id);
    assert AbortOK(s, id);
    if step.WorkerStep? {
      assert WriterOK(s, step.w);
      assert step.act.RunningWrite? ==> Snapshot(s.workers, step.w, id, OriginWritten(s, step));
    }
  }

  function OriginWritten(s: State, step: Step): Origin {
    var op := OpOf(s, step);
    if op.Some? && op.value.UpdateOp? then OriginOf(op.value.transition) else Origin("", "", "", false, 0, 0, 0)
  }

  /** Nothing is carried for a transition the table does not have. */
  lemma CarriedKnown(s: State, id: string, d: Origin)
    requires Sound(s) && Carried(s, id, d)
    ensures id in s.db.transitions
  {
    hide Placed, Counts, Evident, Published, EntryOK, MarkerOK, UnderwayOK, TrailOf, Trimmed;
    assert AbortOK(s, id);
    assert IsRegistered(s, id) || id in s.calls ==> KnownID(s.db, id);
    if w :| Snapshot(s.workers, w, id, d) {
      assert WriterOK(s, w);
    }
  }

  lemma StepRowExact(s: State, step: Step, id: string)
    requires Inv(s) && Enabled(s, step) && !step.CreateStep? && Dated(s, id)
    ensures RowExact(NextDb(s, step), id) && SameOrigin(s.db, NextDb(s, step), id)
  {
    hide Inv, Sound, Placed, Counts, Evident, Stored, Published, Ordered, Logged, Enabled, OpOf, Update, UpdateTask,
         RowExact, Carried, StoredOrigin, OwnWrite;
    Parts(s);
    var op := OpOf(s, step);
    NoOp(s, step);
    if op.Some? && op.value.UpdateOp? {
      var t := op.value.transition;
      WrittenKnown(s, step, t.id);
      WriteCarried(s, step, t.id);
      UpdateExact(s.db, t, op.value.now, op.value.fault, id);
      UpdateOrigin(s.db, t, op.value.now, op.value.fault, id);
    } else if op.Some? {
      WrittenTask(s, step, op.value.task, op.value.now, op.value.fault);
      OwnTrimmed(s, step, op.value.task);
      UpdateTaskKeepsRow(s.db, op.value.task, op.value.now, op.value.fault, id);
    }
  }

  /** Row `row` names the request of creation step `step`. */
  ghost predicate NamesRequest(step: Step, row: Transition) {
    && step.CreateStep?
    && Trimmed(row.requestID) && Padded(step.req.requestID, row.requestID)
    && Trimmed(row.requestedBy) && Padded(step.req.requestedBy, row.requestedBy)
    && row.operation == TrimSpace(OperationName(step.req.operation)) && row.dryRun == step.req.dryRun
    && row.targetCount == |step.nodeIDs| && row.queuedAt == step.now == row.createdAt
  }

  lemma CreatedNames(step: Step, row: Transition)
    requires step.CreateStep?
    requires row == NewTransitionRow(PlanTransition(step.req, TasksOf(step), step.now), step.newID, step.now)
    ensures NamesRequest(step, row) && Trimmed(row.operation)
  {
    hide TrimSpace, Trimmed, Padded, OperationName, CountState;
    TrimSpaceMeans(step.req.requestID, TrimSpace(step.req.requestID));
    TrimSpaceMeans(step.req.requestedBy, TrimSpace(step.req.requestedBy));
    assert TrimSpace(TrimSpace(step.req.requestID)) == TrimSpace(step.req.requestID);
    assert TrimSpace(TrimSpace(step.req.requestedBy)) == TrimSpace(step.req.requestedBy);
  }

  /** The new row, and what is carried for it. */
  lemma NewStored(db: Database, after: Database, row: Transition, id: string)
    requires after.transitions == db.transitions[row.id := row] && row.id !in db.transitions
    requires Trimmed(row.requestID) && Trimmed(row.operation) && Trimmed(row.requestedBy)
    ensures CleanRow(db, id) ==> CleanRow(after, id)
    ensures forall d :: id in db.transitions && StoredOrigin(db, id, d) ==> StoredOrigin(after, id, d)
    ensures id == row.id ==> StoredOrigin(after, id, OriginOf(row))
  {
    hide Trimmed;
  }

  lemma CreateDated(s: State, step: Step, id: string)
    requires Inv(s) && Enabled(s, step) && step.CreateStep? && Dated(s, id)
    ensures Dated(Apply(s, step), id)
  {
    hide Inv, Sound, Placed, Stored, Ordered, Logged, Apply, Enabled, Created, Creates, CreatesRows, Carried, RowExact,
         FirstCall, TasksOf, NextDb, Counts, Trimmed, CleanRow, StoredOrigin, PlanTransition, NewTransitionRow;
    Parts(s);
    if Created(s, step).None? {
      NothingCreated(s, step);
    } else {
      var (row, news) := Created(s, step).value;
      CreationStep(s, step, row, news);
      CreatedDb(s, step, row, news);
      CreatedNames(step, row);
      Components(s, step);
      CreateExact(s.db, NextDb(s, step), row, news, id);
      AddsRow(s.db, NextDb(s, step), row, news);
      NewStored(s.db, NextDb(s, step), row, id);
      forall d | Carried(Apply(s, step), id, d) ensures StoredOrigin(Apply(s, step).db, id, d) {
        NewCarried(s, step, row, news, id, d);
        if Carried(s, id, d) {
          CarriedKnown(s, id, d);
        }
      }
    }
  }

  lemma AddsRow(db: Database, after: Database, row: Transition, news: seq<Task>)
    requires CreatesRows(db, after, row, news)
    ensures after.transitions == db.transitions[row.id := row] && row.id !in db.transitions
  {
    hide InsertTasks, CreationEvents, AllTidy;
  }

  /** A creation adds the new row to what is carried, for its own transition. */
  lemma NewCarried(s: State, step: Step, row: Transition, news: seq<Task>, id: string, d: Origin)
    requires Creates(s, step, row, news) && Carried(Apply(s, step), id, d)
    ensures Carried(s, id, d) || (id == row.id && d == OriginOf(row))
    ensures Apply(s, step).db.transitions == s.db.transitions[row.id := row] && row.id !in s.db.transitions
  {
    hide Apply, NewTasksIn, NewCall, RowOf, AsPlanned, TrailOf, Trimmed, PendingItems, CountState, Snapshot;
  }

  lemma StepDated(s: State, step: Step, id: string)
    requires Inv(s) && Enabled(s, step) && Dated(s, id)
    ensures Dated(Apply(s, step), id)
  {
    hide Inv, Sound, Placed, Counts, Evident, Stored, Published, Ordered, Logged, Apply, Enabled, RowExact, Carried,
         TrailGrows, WritesFor, Commits, IsWritten, WritesTask;
    if step.CreateStep? {
      CreateDated(s, step, id);
    } else {
      Parts(s);
      Components(s, step);
      StepRowExact(s, step, id);
      StepRow(s, step, id);
      StepKeeps(s, step, id);
      forall d | Carried(Apply(s, step), id, d) ensures StoredOrigin(Apply(s, step).db, id, d) {
        StepCarries(s, step, id, d);
      }
    }
  }

  lemma {:induction false} AlwaysDated(l: Limits, steps: seq<Step>, s: State, id: string)
    requires ValidLimits(l) && Run(l, steps, s)
    ensures Dated(s, id)
    decreases |steps|
  {
    hide Apply, Enabled, Inv, Continues;
    if steps == [] {
      NoStep(Init(l), s);
    } else {
      hide Dated, Init;
      var front, before, step := LastStep(Init(l), steps, s);
      RunInv(l, front, before);
      AlwaysDated(l, front, before, id);
      StepDated(before, step, id);
    }
  }

  // ---------------------------------------------------------------- which request a row is for

  /** On the way the row of transition `id` was created, by a call whose request it names. */
  ghost predicate Requested(steps: seq<Step>, states: seq<State>, id: string, row: Transition) {
    && |states| == |steps| + 1
    && exists k :: 0 <= k < |steps| && id !in states[k].db.transitions && id in states[k + 1].db.transitions &&
         NamesRequest(steps[k], row)
  }

  lemma RequestedLater(steps: seq<Step>, states: seq<State>, step: Step, s': State, id: string, row: Transition,
                       row': Transition)
    requires Requested(steps, states, id, row) && OriginOf(row') == OriginOf(row)
    ensures Requested(steps + [step], states + [s'], id, row')
  {
    hide Padded, Trimmed, TrimSpace, OperationName;
    var all, after := steps + [step], states + [s'];
    var k :| 0 <= k < |steps| && id !in states[k].db.transitions && id in states[k + 1].db.transitions &&
      NamesRequest(steps[k], row);
    assert after[k] == states[k] && after[k + 1] == states[k + 1] && NamesRequest(all[k], row');
  }

  lemma RequestedNow(steps: seq<Step>, states: seq<State>, s: State, step: Step, s': State, id: string, row: Transition)
    requires |states| == |steps| && id !in s.db.transitions && id in s'.db.transitions && NamesRequest(step, row)
    ensures Requested(steps + [step], states + [s] + [s'], id, row)
  {
    hide NamesRequest;
    var n, all, after := |steps|, steps + [step], states + [s] + [s'];
    assert after[n] == s && after[n + 1] == s' && NamesRequest(all[n], row);
  }

  /** A step keeps what the row was created with, and a row that appears names the request of the step. */
  lemma StepNames(s: State, step: Step, id: string)
    requires Inv(s) && Enabled(s, step) && Dated(s, id)
    ensures SameOrigin(s.db, Apply(s, step).db, id)
    ensures id !in s.db.transitions && id in Apply(s, step).db.transitions ==>
              NamesRequest(step, Apply(s, step).db.transitions[id])
  {
    hide Inv, Sound, Apply, Enabled, Created, CreatesRows, TasksOf, NextDb, NewTransitionRow, PlanTransition, RowExact,
         Carried, CleanRow, NamesRequest, Placed, Counts, Evident, Stored, Published, Ordered, Logged;
    Components(s, step);
    if !step.CreateStep? {
      Parts(s);
      StepRowExact(s, step, id);
      StepKeeps(s, step, id);
    } else if Created(s, step).None? {
      NothingCreated(s, step);
    } else {
      var (row, news) := Created(s, step).value;
      CreatedDb(s, step, row, news);
      CreatedNames(step, row);
      AddsRow(s.db, NextDb(s, step), row, news);
    }
  }

  /** Every row of the table names its request. */
  ghost predicate AllRequested(s: State, steps: seq<Step>, states: seq<State>) {
    forall id :: id in s.db.transitions ==> Requested(steps, states, id, s.db.transitions[id])
  }

  /** Whatever was written in between, in the end the row of each transition names the request that the transition was
      created for: its identifier, who made it, the operation, whether it was a dry run, how many targets it had, and
      when it came. */
  lemma {:induction false} RowsNameRequests(l: Limits, steps: seq<Step>, states: seq<State>)
    requires ValidLimits(l) && Course(l, steps, states)
    ensures AllRequested(EndOf(l, states), steps, states)
    decreases |steps|
  {
    hide Inv, Course, Enabled, Apply, Requested, Run, Dated, SameOrigin, NamesRequest;
    CourseRun(l, steps, states);
    if steps != [] {
      hide EndOf, Init;
      var front, before, step := CourseStep(l, steps, states);
      RowsNameRequests(l, front, before);
      CourseRun(l, front, before);
      var s, s' := EndOf(l, before), EndOf(l, states);
      RunInv(l, front, s);
      Whole(l, before);
      forall id | id in s'.db.transitions ensures Requested(steps, states, id, s'.db.transitions[id]) {
        AlwaysDated(l, front, s, id);
        StepNames(s, step, id);
        if id in s.db.transitions {
          KeptOrigin(s.db, s'.db, id);
          RequestedLater(front, before, step, s', id, s.db.transitions[id], s'.db.transitions[id]);
        } else {
          RequestedNow(front, before[..|front|], s, step, s', id, s'.db.transitions[id]);
        }
      }
    }
  }

  lemma KeptOrigin(db: Database, after: Database, id: string)
    requires SameOrigin(db, after, id) && id in db.transitions
    ensures id in after.transitions && OriginOf(after.transitions[id]) == OriginOf(db.transitions[id])
  {
  }

  // ---------------------------------------------------------------- replay of the results

  lemma StepResultExact(s: State, step: Step, t: string)
    requires Inv(s) && Enabled(s, step) && ResultExact(s.db, t)
    ensures ResultExact(NextDb(s, step), t)
  {
    hide Inv, Sound, Placed, Counts, Evident, Stored, Published, Ordered, Logged, Enabled, OpOf, Update, UpdateTask,
         ResultExact, OwnWrite, Apply, Created, CreatesRows;
    Parts(s);
    var op := OpOf(s, step);
    if step.CreateStep? {
      CreateResultExact(s, step, t);
    } else if op.Some? && op.value.UpdateOp? {
      WrittenKnown(s, step, op.value.transition.id);
      UpdateKeepsResult(s.db, op.value.transition, op.value.now, op.value.fault, t);
    } else if op.Some? {
      NoOp(s, step);
      WrittenTask(s, step, op.value.task, op.value.now, op.value.fault);
      OwnTrimmed(s, step, op.value.task);
      OwnDate(s, step, op.value.task);
      UpdateTaskExact(s.db, op.value.task, op.value.now, op.value.fault, t);
    }
  }

  lemma CreateResultExact(s: State, step: Step, t: string)
    requires Inv(s) && Enabled(s, step) && step.CreateStep? && ResultExact(s.db, t)
    ensures ResultExact(NextDb(s, step), t)
  {
    hide Inv, Apply, Enabled, Created, CreatesRows, ResultExact, NextDb;
    if Created(s, step).None? {
      NothingCreated(s, step);
      Components(s, step);
    } else {
      var (row, news) := Created(s, step).value;
      CreatedDb(s, step, row, news);
      CreateExact(s.db, NextDb(s, step), row, news, t);
    }
  }

  /** The task a worker writes is dated like its row. */
  lemma OwnDate(s: State, step: Step, t: Task)
    requires OwnWrite(s, step, t)
    ensures StoredTaskDate(s.db, t)
  {
    hide TaskOK, RowOK, Results, TidyRoute;
  }

  lemma {:induction false} AlwaysResultExact(l: Limits, steps: seq<Step>, s: State, t: string)
    requires ValidLimits(l) && Run(l, steps, s)
    ensures ResultExact(s.db, t)
    decreases |steps|
  {
    hide Apply, Enabled, Inv, Continues, NextDb;
    if steps == [] {
      NoStep(Init(l), s);
    } else {
      hide ResultExact, Init;
      var front, before, step := LastStep(Init(l), steps, s);
      RunInv(l, front, before);
      AlwaysResultExact(l, front, before, t);
      StepResultExact(before, step, t);
      Components(before, step);
    }
  }

  /** Folding the outbox gives the transition table, and the last result of each terminal task is its row. */
  ghost predicate Replays(db: Database) {
    && Replayed(db.outbox) == db.transitions
    && forall t :: t in db.tasks && Terminal(db.tasks[t].state) ==>
         t in ReplayedResults(db.outbox) && Columns(ReplayedResults(db.outbox)[t]) == db.tasks[t]
  }

  /** In every reachable state, whatever writes failed on the way, folding the outbox gives exactly the transition
      table, and the last result of each terminal task is its row on every stored column, `created_at` included. */
  lemma ReplayInEveryRun(l: Limits, steps: seq<Step>, s: State)
    requires ValidLimits(l) && Run(l, steps, s)
    ensures Replays(s.db)
  {
    hide *;
    RunInv(l, steps, s);
    Parts(s);
    forall id ensures RowExact(s.db, id) {
      AlwaysDated(l, steps, s, id);
      DatedExact(s, id);
    }
    forall t ensures ResultExact(s.db, t) { AlwaysResultExact(l, steps, s, t); }
    ExactTables(s.db);
  }

  lemma DatedExact(s: State, id: string)
    requires Dated(s, id)
    ensures RowExact(s.db, id)
  {
    hide RowExact, Carried;
  }

  lemma ExactTables(db: Database)
    requires Logged(db) && (forall id :: RowExact(db, id)) && (forall t :: ResultExact(db, t))
    ensures Replays(db)
  {
    hide Replayed, ReplayedResults, Columns, Keyed, OneTaskPerNode, ResultLogged;
    forall id | id in db.transitions
      ensures id in Replayed(db.outbox) && Replayed(db.outbox)[id] == db.transitions[id]
    {
      assert RowExact(db, id);
    }
    forall t | t in db.tasks && Terminal(db.tasks[t].state)
      ensures t in ReplayedResults(db.outbox) && Columns(ReplayedResults(db.outbox)[t]) == db.tasks[t]
    {
      assert ResultExact(db, t);
    }
  }
}
