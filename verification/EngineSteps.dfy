/** Every step but a creation keeps the ledger balanced, moves the tables and the outbox as the store says, and keeps
    the order of each transition's writes. */
module EngineSteps {
  import opened Text
  import opened Records
  import opened TransitionStore
  import opened OutboxReplay
  import opened Sections
  import opened Engine
  import opened Placement
  import opened Ledger
  import opened Evidence
  import opened Trails
  import opened EngineInvariant

  // ---------------------------------------------------------------- the transition of a task in hand is active

  /** A registered transition is not one that a call has yet to register. */
  lemma FreshElsewhere(s: State, id: string)
    requires Counts(s) && IsRegistered(s, id)
    ensures !CanRegister(s, id)
  {
    hide Balanced;
  }

  /** The transition of a task that a worker has is active. */
  lemma HeldIsActive(s: State, w: nat)
    requires Placed(s) && Counts(s) && Ordered(s) && Working(s, w)
    ensures Owned(s, w) && TransitionOf(s, w) in s.progress && TransitionOf(s, w) !in s.closed
    ensures Active(s.made, s.places, s.calls, s.closed, TransitionOf(s, w), s.progress[TransitionOf(s, w)])
  {
    hide Placed, EntryOK, MarkerOK, WriterOK, AbortOK, Active, Fresh, Settled, Accounted, Known;
    Own(s, w);
    var id := TransitionOf(s, w);
    KnownKeys(s.made, s.workers[w].item);
    assert UnderwayOK(s, TaskOf(s, w)) && EntryOK(s, id);
    FreshElsewhere(s, id);
    OpenAccounted(s, TaskOf(s, w));
    AccountedActive(s, id);
  }

  lemma OpenAccounted(s: State, t: string)
    requires Counts(s) && t in s.made && t in s.places && !s.places[t].Done?
    ensures Accounted(s.calls, s.progress, s.made[t].task.transitionID)
  {
    hide Active, Fresh, Settled, Accounted;
  }

  lemma AccountedActive(s: State, id: string)
    requires Counts(s) && Accounted(s.calls, s.progress, id) && !CanRegister(s, id)
    ensures id in s.progress && id !in s.closed
    ensures Active(s.made, s.places, s.calls, s.closed, id, s.progress[id])
  {
    hide Balanced;
    assert Active(s.made, s.places, s.calls, s.closed, id, s.progress[id]);
  }

  // ---------------------------------------------------------------- nobody else is left when the last task is counted

  /** Another task of worker `w`'s transition that is not counted. */
  ghost predicate OpenBeside(s: State, w: nat, u: string) {
    && u in s.made && u in s.places && u != TaskOf(s, w) && s.made[u].task.transitionID == TransitionOf(s, w)
    && !s.places[u].Done?
  }

  lemma OthersOpen(s: State, w: nat, u: string)
    requires Counts(s) && Owned(s, w) && TransitionOf(s, w) in s.progress && OpenBeside(s, w, u)
    ensures s.progress[TransitionOf(s, w)].remaining > 1
  {
    hide Balanced;
    var id := TransitionOf(s, w);
    assert Active(s.made, s.places, s.calls, s.closed, id, s.progress[id]);
    TwoOpen(s.made, s.places, id, TaskOf(s, w), u, s.progress[id]);
  }

  /** A StartTransition call that still has tasks to offer keeps its transition open. */
  lemma CallOpen(s: State, w: nat)
    requires Placed(s) && Counts(s) && Owned(s, w) && TransitionOf(s, w) in s.progress && TransitionOf(s, w) in s.calls
    ensures s.progress[TransitionOf(s, w)].remaining > 1
  {
    hide Counts, Known;
    var id := TransitionOf(s, w);
    EntryActive(s, id);
    assert CallOK(s.places, id, s.calls[id]);
    FirstOffered(s, id);
    KnownKeys(s.made, s.calls[id].items[0]);
    assert OpenBeside(s, w, s.calls[id].items[0].task.id);
    OthersOpen(s, w, s.calls[id].items[0].task.id);
  }

  /** What the ledger says about an entry. */
  lemma EntryActive(s: State, id: string)
    requires Counts(s) && id in s.progress
    ensures s.progress[id].transition.id == id && s.progress[id].transition.completedAt.None?
    ensures s.progress[id].remaining > 0 && (id in s.calls ==> s.calls[id].Enqueueing?) && id !in s.closed
    ensures Balanced(s.made, s.places, id, s.progress[id])
  {
    hide Members;
    assert Active(s.made, s.places, s.calls, s.closed, id, s.progress[id]);
  }

  // ---------------------------------------------------------------- the steps

  /** The ledger after a step. */
  ghost predicate CountsAfter(s: State, step: Step) {
    Balances(NextMade(s, step), NextPlaces(s, step), NextCalls(s, step), NextProgress(s, step), NextClosed(s, step))
  }

  lemma EnqueueCounts(s: State, id: string)
    requires Placed(s) && Counts(s) && CanEnqueue(s, id)
    ensures CountsAfter(s, EnqueueStep(id))
  {
    hide Placed, Counts, Balances, Known;
    FirstOffered(s, id);
    KnownKeys(s.made, s.calls[id].items[0]);
    CountsAre(s);
    var t := s.calls[id].items[0].task.id;
    MoveBalances(s.made, s.places, s.calls, s.progress, s.closed, t, Queued);
    CallsGoOn(s.made, s.places[t := Queued], s.calls, AfterOffer(s.calls, id), s.progress, s.closed);
  }

  lemma GiveUpCounts(s: State, id: string)
    requires Placed(s) && Counts(s) && CanEnqueue(s, id)
    ensures CountsAfter(s, EnqueueFailStep(id))
  {
    hide Balances, DropAll;
    GivesUp(s, id);
    var places := NextPlaces(s, EnqueueFailStep(id));
    assert SameTallies(s.made, s.places, places) by { DroppingTallies(s.made, s.places, places, id); }
    TalliesKeep(s.made, s.places, places, s.calls, s.progress, s.closed);
    CallsGoOn(s.made, places, s.calls, s.calls - {id}, s.progress, s.closed);
  }

  lemma DroppingTallies(made: map<string, Made>, before: map<string, Place>, after: map<string, Place>, id: string)
    requires made.Keys == before.Keys && GaveUp(made, before, after, id)
    ensures SameTallies(made, before, after)
  {
    forall c, k ensures Members(made, after, c, k) == Members(made, before, c, k) { }
  }

  lemma CallCounts(s: State, step: Step)
    requires Placed(s) && Counts(s) && Enabled(s, step) && !step.CreateStep? && !step.WorkerStep?
    ensures CountsAfter(s, step)
  {
    hide Placed, Balances, AfterOffer;
    if step.EnqueueStep? {
      EnqueueCounts(s, step.id);
    } else if step.EnqueueFailStep? {
      GiveUpCounts(s, step.id);
    } else if step.RegisterStep? {
      RegisterBalances(s.made, s.places, s.calls, s.progress, s.closed, step.id);
    } else if step.FinishStep? {
      CallsGoOn(s.made, s.places, s.calls, s.calls - {step.id}, s.progress, s.closed);
    } else if step.AbortStep? {
      TouchBalances(s.made, s.places, s.calls, s.progress, s.closed, step.id,
                    Aborted(s.progress[step.id], step.now));
    }
  }

  lemma RecordCounts(s: State, w: nat, now: Time)
    requires Placed(s) && Counts(s) && Ordered(s) && CanAct(s, w, Record(now))
    ensures CountsAfter(s, WorkerStep(w, Record(now)))
  {
    hide Placed, Counts, Ordered, Balances, Active, AfterRecord, AfterClosing, Known;
    HeldIsActive(s, w);
    KnownKeys(s.made, s.workers[w].item);
    if TransitionOf(s, w) in s.calls {
      CallOpen(s, w);
    }
    CountsAre(s);
    RecordBalances(s.made, s.places, s.calls, s.progress, s.closed, TaskOf(s, w), At(s, w).outcome, now, w);
  }

  lemma CountsAre(s: State)
    requires Counts(s)
    ensures Balances(s.made, s.places, s.calls, s.progress, s.closed)
  {
    hide Balances;
  }

  lemma WorkerCounts(s: State, w: nat, act: Action)
    requires Placed(s) && Counts(s) && Ordered(s) && CanAct(s, w, act)
    ensures CountsAfter(s, WorkerStep(w, act))
  {
    hide Placed, Ordered, Balances, Started, CanMove, MarkOf, GivesUpTask, Known, Owns, NextWorker, AfterRecord,
         AfterClosing, AfterMark;
    if act.Record? {
      RecordCounts(s, w, act.now);
    } else if act.Dequeue? {
      HeadOfQueue(s);
      KnownKeys(s.made, s.queue[0]);
      MoveBalances(s.made, s.places, s.calls, s.progress, s.closed, s.queue[0].task.id, Held(w));
    } else if GivesUpTask(s, s.workers[w], act) {
      StageOwns(s, w, act);
      Own(s, w);
      KnownKeys(s.made, s.workers[w].item);
      MoveBalances(s.made, s.places, s.calls, s.progress, s.closed, TaskOf(s, w), Dropped);
      LosesEntry(s, w, act);
    } else if act.Mark? {
      MarkCounts(s, w, act.now);
    }
  }

  /** A worker that gives its task up changes no entry. */
  lemma LosesEntry(s: State, w: nat, act: Action)
    requires IsBusy(s, w) && GivesUpTask(s, s.workers[w], act)
    ensures NextProgress(s, WorkerStep(w, act)) == s.progress && NextClosed(s, WorkerStep(w, act)) == s.closed
  {
    hide Started;
  }

  lemma MarkCounts(s: State, w: nat, now: Time)
    requires Counts(s)
    ensures Balances(s.made, s.places, s.calls, AfterMark(s.progress, TransitionOf(s, w), now), s.closed)
  {
    hide Balances;
    var id := TransitionOf(s, w);
    if MarkOf(s.progress, id, now).Persist? {
      TouchBalances(s.made, s.places, s.calls, s.progress, s.closed, id, Started(s.progress[id], now));
    }
  }

  lemma StepCounts(s: State, step: Step)
    requires Placed(s) && Counts(s) && Ordered(s) && Enabled(s, step) && !step.CreateStep?
    ensures Counts(Apply(s, step))
  {
    hide NextDb, NextMade, NextPlaces, NextWork, NextCalls, NextProgress, NextClosed, NextMarkers, NextCanceled,
         NextAborts, NextQueue, NextWorkers, NextLimiters, CanAct, Placed, Balances, Ordered;
    if step.WorkerStep? {
      WorkerCounts(s, step.w, step.act);
      assert step == WorkerStep(step.w, step.act);
    } else {
      CallCounts(s, step);
    }
  }

  // ---------------------------------------------------------------- transitions

  /** The step writes transition `id`. */
  predicate WritesFor(s: State, step: Step, id: string) {
    var op := OpOf(s, step);
    op.Some? && op.value.UpdateOp? && op.value.transition.id == id
  }

  function KindWritten(s: State, step: Step): WriteKind {
    var op := OpOf(s, step);
    if op.Some? && op.value.UpdateOp? then KindOfWrite(op.value.transition) else AsOther
  }

  /** The transition a step writes is known. */
  lemma WrittenKnown(s: State, step: Step, id: string)
    requires Stored(s) && Ordered(s) && Placed(s) && Counts(s) && Enabled(s, step) && WritesFor(s, step, id)
    ensures KnownID(s.db, id)
  {
    hide EntryOK, MarkerOK, UnderwayOK, Placed, Counts, KnownID, CanAcquire, Trail, Fits;
    if step.FinishStep? {
      assert FinishingOK(s, step.id);
    } else if step.AbortWriteStep? {
      assert AbortOK(s, step.id);
    } else {
      assert WriterOK(s, step.w);
    }
  }

  /** The step's store call is committed. */
  predicate Commits(s: State, step: Step) {
    var op := OpOf(s, step);
    op.Some? && op.value.UpdateOp? && !op.value.fault.BeforeCommit?
  }

  /** Transition `id` has one more write in its history if the step commits one; other histories are as before. */
  ghost predicate TrailGrows(s: State, step: Step, id: string) {
    Trail(NextDb(s, step).outbox, id) ==
      if WritesFor(s, step, id) && Commits(s, step) then TrailOf(s, id) + [KindWritten(s, step)] else TrailOf(s, id)
  }

  /** What a step that is not a creation leaves of the tables, for the task or transition `id`. */
  ghost predicate KeptTables(s: State, step: Step, id: string) {
    var db := NextDb(s, step);
    && db.tasks.Keys == s.db.tasks.Keys && db.transitions.Keys == s.db.transitions.Keys
    && (!WritesTask(s, step, id) && id in s.db.tasks && id in db.tasks ==> db.tasks[id] == s.db.tasks[id])
    && (!WritesTask(s, step, id) ==> Results(db.outbox, id) == Results(s.db.outbox, id))
  }

  predicate WritesTask(s: State, step: Step, id: string) {
    var op := OpOf(s, step);
    op.Some? && op.value.UpdateTaskOp? && op.value.task.id == id
  }

  lemma UpdateOpKeeps(s: State, step: Step, t: Transition, now: Time, fault: Fault, id: string)
    requires OpOf(s, step) == Some(UpdateOp(t, now, fault)) && KnownID(s.db, t.id)
    ensures TrailGrows(s, step, id) && KeptTables(s, step, id)
  {
    hide OpOf, Update, Trail, Results, Trimmed, KindOfWrite, Committed, Sent;
    UpdateEffect(s.db, t, now, fault);
    UpdateTrail(s.db, t, now, fault, id);
  }

  lemma UpdateTaskOpKeeps(s: State, step: Step, t: Task, now: Time, fault: Fault, id: string)
    requires OpOf(s, step) == Some(UpdateTaskOp(t, now, fault)) && Trimmed(t.id)
    ensures TrailGrows(s, step, id) && KeptTables(s, step, id)
    ensures NextDb(s, step).transitions == s.db.transitions
  {
    hide OpOf, UpdateTask, Trail, Results, Trimmed;
    UpdateTaskTrail(s.db, t, now, fault, id);
  }

  /** `row` is what the step writes, but for the creation time, which is not among the columns of an update. */
  ghost predicate IsWritten(s: State, step: Step, row: Transition) {
    var op := OpOf(s, step);
    op.Some? && op.value.UpdateOp? && SameEnd(row, op.value.transition)
  }

  /** The row of transition `id` is as before unless the step commits a write of it. */
  ghost predicate RowChange(s: State, step: Step, id: string) {
    var rows, rows' := s.db.transitions, NextDb(s, step).transitions;
    id in rows ==>
      && id in rows' && rows'[id].createdAt == rows[id].createdAt
      && if WritesFor(s, step, id) && Commits(s, step) then IsWritten(s, step, rows'[id]) else rows'[id] == rows[id]
  }

  lemma UpdateRow(s: State, step: Step, t: Transition, now: Time, fault: Fault, id: string)
    requires OpOf(s, step) == Some(UpdateOp(t, now, fault)) && Trimmed(t.id) && t.id != ""
    ensures RowChange(s, step, id)
  {
    hide Update, OpOf, SameEnd, Trimmed;
    UpdatedTransition(s.db, t, now, fault, id);
  }

  /** Creations add rows and task updates touch none. */
  lemma OtherRows(s: State, step: Step, id: string)
    requires OpOf(s, step).None? || !OpOf(s, step).value.UpdateOp?
    ensures RowChange(s, step, id)
  {
    hide OpOf, NewTransitionRow, NewTasks, InsertTasks, CreationEvents, LifecycleEvent, CleanTask, TaskResultEvent,
         Updatable, UpdatedTaskRow;
  }

  lemma StepRow(s: State, step: Step, id: string)
    requires Placed(s) && Counts(s) && Stored(s) && Ordered(s) && Enabled(s, step)
    ensures RowChange(s, step, id)
  {
    hide Placed, Counts, Stored, Ordered, Enabled, OpOf, RowChange;
    var op := OpOf(s, step);
    if op.Some? && op.value.UpdateOp? {
      WrittenKnown(s, step, op.value.transition.id);
      UpdateRow(s, step, op.value.transition, op.value.now, op.value.fault, id);
    } else {
      OtherRows(s, step, id);
    }
  }

  // ---------------------------------------------------------------- tasks

  /** The step is the write that announces task `t` as running. */
  predicate Announces(s: State, step: Step, t: string) {
    step.WorkerStep? && step.act.Announce? && KnownTask(s, step.w) && TaskOf(s, step.w) == t
  }

  /** The step is the write that completes task `t`. */
  predicate Completes(s: State, step: Step, t: string) {
    step.WorkerStep? && step.act.TaskWrite? && KnownTask(s, step.w) && TaskOf(s, step.w) == t
  }

  /** What the invariant says of the task of a worker. */
  ghost predicate OnDuty(s: State, w: nat) {
    && Owned(s, w) && TaskOK(s, TaskOf(s, w)) && PublishedOK(s, TaskOf(s, w))
    && s.made[TaskOf(s, w)] == Made(s.workers[w].item.task, s.workers[w].item.operation)
    && s.made[TaskOf(s, w)].task.transitionID == TransitionOf(s, w) && s.made[TaskOf(s, w)].task.state.Pending?
    && s.made[TaskOf(s, w)].task.id == TaskOf(s, w)
  }

  lemma Duty(s: State, w: nat)
    requires Placed(s) && Evident(s) && Published(s) && Working(s, w)
    ensures OnDuty(s, w)
  {
    hide TaskOK, PublishedOK, Placed;
    Own(s, w);
  }

  /** The task that a step writes is the worker's own: running when it is announced, terminal when it is completed. */
  ghost predicate OwnWrite(s: State, step: Step, t: Task) {
    && step.WorkerStep? && OnDuty(s, step.w) && t.id == TaskOf(s, step.w) && TidyRoute(t)
    && SameRoute(t, s.made[t.id].task) && t.transitionID in s.db.transitions
    && s.work[t.id].recorded.Untried?
    && (step.act.Announce? ==> t.state.Running? && s.work[t.id].announced.Untried?)
    && (step.act.TaskWrite? ==> Terminal(t.state) && RowOK(s.limits, s.made[t.id], s.work[t.id], t))
    && (step.act.Announce? || step.act.TaskWrite?)
  }

  lemma WrittenTask(s: State, step: Step, t: Task, now: Time, fault: Fault)
    requires Placed(s) && Evident(s) && Published(s) && Stored(s)
    requires Enabled(s, step) && OpOf(s, step) == Some(UpdateTaskOp(t, now, fault))
    ensures OwnWrite(s, step, t)
  {
    hide Placed, Evident, Published, TidyRoute, PublishedOK, CanAcquire, Proven, Reached, Routed, Verdict,
         KnownID, FinishingOK;
    OwnsStill(s, step.w, step.act);
    Duty(s, step.w);
    RouteTidy(t, s.made[TaskOf(s, step.w)].task);
  }

  lemma RouteTidy(a: Task, b: Task)
    ensures SameRoute(a, b) && TidyRoute(b) ==> TidyRoute(a)
  {
  }

  /** What every step but a creation leaves alone. */
  lemma StepKeeps(s: State, step: Step, id: string)
    requires Placed(s) && Counts(s) && Evident(s) && Published(s) && Stored(s) && Ordered(s)
    requires Enabled(s, step) && !step.CreateStep?
    ensures TrailGrows(s, step, id) && KeptTables(s, step, id)
  {
    hide Placed, Counts, Evident, Published, Stored, Ordered, Enabled, OpOf, OwnWrite, TidyRoute;
    var op := OpOf(s, step);
    if op.Some? && op.value.UpdateOp? {
      WrittenKnown(s, step, op.value.transition.id);
      UpdateOpKeeps(s, step, op.value.transition, op.value.now, op.value.fault, id);
    } else if op.Some? && op.value.UpdateTaskOp? {
      WrittenTask(s, step, op.value.task, op.value.now, op.value.fault);
      OwnTrimmed(s, step, op.value.task);
      UpdateTaskOpKeeps(s, step, op.value.task, op.value.now, op.value.fault, id);
    } else {
      NoOp(s, step);
    }
  }

  lemma OwnTrimmed(s: State, step: Step, t: Task)
    requires OwnWrite(s, step, t)
    ensures Trimmed(t.id)
  {
    hide TaskOK, PublishedOK, RowOK;
  }

  lemma NoOp(s: State, step: Step)
    requires !step.CreateStep?
    ensures OpOf(s, step).None? || OpOf(s, step).value.UpdateOp? || OpOf(s, step).value.UpdateTaskOp?
  {
  }

  // ---------------------------------------------------------------- rows and results

  /** The writes of the task's row, and what they carried, are the same. */
  predicate SameWrites(k: Work, k': Work) {
    k'.announced == k.announced && k'.recorded == k.recorded && k'.row == k.row
  }

  lemma KeptWrites(s: State, step: Step, t: string)
    requires !step.CreateStep? && !Announces(s, step, t) && !Completes(s, step, t) && t in s.work
    ensures var work := NextWork(s, step);
            t in work && SameWrites(s.work[t], work[t])
  {
    hide ContextEnded, SMDAnswer, RequestFor;
  }

  /** The two steps that write the row of a task. */
  lemma WhoWrites(s: State, step: Step, t: string)
    requires Placed(s) && Evident(s) && Published(s) && Stored(s) && Enabled(s, step)
    ensures WritesTask(s, step, t) <==> Announces(s, step, t) || Completes(s, step, t)
  {
    hide Placed, Evident, Published, Stored, TaskOK, PublishedOK, Known, TidyRoute, SameRoute, RowOK, CanAcquire;
    var op := OpOf(s, step);
    if op.Some? && op.value.UpdateTaskOp? {
      WrittenTask(s, step, op.value.task, op.value.now, op.value.fault);
    }
  }

  /** The table after the write that announces a task: running, or as it was created. */
  lemma AnnouncedTable(m: Made, k: Work, db: Database, t: Task, now: Time, fault: Fault)
    requires TidyRoute(t) && SameRoute(t, m.task) && t.id in db.tasks && t.state.Running?
    requires TableOK(m, k, db.tasks[t.id], Results(db.outbox, t.id)) && m.task.state.Pending?
    requires k.announced.Untried? && k.recorded.Untried?
    ensures var (after, r) := UpdateTask(db, t, now, fault);
            t.id in after.tasks && TableOK(m, k.(announced := Tried(r)), after.tasks[t.id], Results(after.outbox, t.id))
  {
    hide UpdateTask, Trimmed;
    UpdateTaskTrail(db, t, now, fault, t.id);
    UpdateTaskReturns(db, t, now, fault);
    assert Results(db.outbox, t.id) + [] == Results(db.outbox, t.id);
  }

  /** The table after the write that completes it: the returned row and its result, or as before. */
  lemma WrittenTable(m: Made, k: Work, db: Database, t: Task, now: Time, fault: Fault)
    requires TidyRoute(t) && SameRoute(t, m.task) && t.id in db.tasks && Terminal(t.state)
    requires TableOK(m, k, db.tasks[t.id], Results(db.outbox, t.id)) && m.task.state.Pending? && k.recorded.Untried?
    ensures var (after, r) := UpdateTask(db, t, now, fault);
            && t.id in after.tasks
            && TableOK(m, k.(row := Some(SavedRow(db, t, now, fault)), recorded := Tried(r)), after.tasks[t.id],
                       Results(after.outbox, t.id))
  {
    hide UpdateTask, Trimmed;
    UpdateTaskTrail(db, t, now, fault, t.id);
    UpdateTaskReturns(db, t, now, fault);
  }

  lemma OwnPublished(s: State, step: Step, t: Task, now: Time, fault: Fault)
    requires Enabled(s, step) && OpOf(s, step) == Some(UpdateTaskOp(t, now, fault)) && OwnWrite(s, step, t)
    ensures PublishedOK(Apply(s, step), t.id)
  {
    hide NextPlaces, NextCalls, NextProgress, NextClosed, NextMarkers, NextCanceled, NextAborts, NextQueue, NextWorkers,
         NextLimiters, UpdateTask, Results, TableOK, TidyRoute, SameRoute, RowOK, TaskOK, Known, CanAcquire, SavedRow;
    if step.act.Announce? {
      AnnouncedTable(s.made[t.id], s.work[t.id], s.db, t, now, fault);
    } else {
      WrittenTable(s.made[t.id], s.work[t.id], s.db, t, now, fault);
    }
  }

  lemma KeptPublished(s: State, step: Step, t: string)
    requires !step.CreateStep? && PublishedOK(s, t) && KeptTables(s, step, t) && !WritesTask(s, step, t)
    requires !Announces(s, step, t) && !Completes(s, step, t)
    ensures PublishedOK(Apply(s, step), t)
  {
    hide NextDb, NextPlaces, NextWork, NextCalls, NextProgress, NextClosed, NextMarkers, NextCanceled, NextAborts,
         NextQueue, NextWorkers, NextLimiters, Results, Columns, WritesTask, Announces, Completes;
    KeptWrites(s, step, t);
  }

  lemma StepPublished(s: State, step: Step)
    requires Placed(s) && Counts(s) && Evident(s) && Published(s) && Stored(s) && Ordered(s)
    requires Enabled(s, step) && !step.CreateStep?
    ensures Published(Apply(s, step))
  {
    hide Placed, Counts, Evident, Stored, Ordered, Enabled, OwnWrite, KeptTables, PublishedOK, Announces, Completes,
         Apply, OpOf;
    SameMade(s, step);
    forall t | t in s.made ensures PublishedOK(Apply(s, step), t) {
      WhoWrites(s, step, t);
      StepKeeps(s, step, t);
      if WritesTask(s, step, t) {
        var op := OpOf(s, step).value;
        WrittenTask(s, step, op.task, op.now, op.fault);
        OwnPublished(s, step, op.task, op.now, op.fault);
      } else {
        assert PublishedOK(s, t);
        KeptPublished(s, step, t);
      }
    }
  }

  // ---------------------------------------------------------------- what is known

  /** Transitions are registered by their calls, and stay so. */
  lemma StaysRegistered(s: State, step: Step, id: string)
    requires Enabled(s, step)
    ensures var now := id in NextProgress(s, step) || id in NextClosed(s, step);
            now <==> IsRegistered(s, id) || (step == RegisterStep(id))
  {
    hide FinalState, CanAct;
  }

  /** A call is there before the step and has not changed its kind, unless it registers its transition. */
  lemma CallsStay(s: State, step: Step, id: string)
    requires Enabled(s, step) && !step.CreateStep? && id in NextCalls(s, step)
    ensures id in s.calls
    ensures NextCalls(s, step)[id] == s.calls[id] || (!s.calls[id].Finishing? && NextCalls(s, step)[id].Enqueueing?)
  {
  }

  lemma StepStored(s: State, step: Step)
    requires Placed(s) && Counts(s) && Evident(s) && Published(s) && Stored(s) && Ordered(s)
    requires Enabled(s, step) && !step.CreateStep?
    ensures Stored(Apply(s, step))
  {
    hide NextDb, NextPlaces, NextWork, NextCalls, NextProgress, NextClosed, NextMarkers, NextCanceled, NextAborts,
         NextQueue, NextWorkers, NextLimiters, Placed, Counts, Evident, Published, Ordered, TrailGrows, Trimmed, CanAct;
    var s' := Apply(s, step);
    StepKeeps(s, step, "");
    forall id | IsRegistered(s', id) || id in s'.calls ensures KnownID(s'.db, id) {
      StaysRegistered(s, step, id);
      if id in s'.calls {
        CallsStay(s, step, id);
      }
      assert KnownID(s.db, id);
    }
    forall id | CanFinish(s', id) ensures FinishingOK(s', id) {
      CallsStay(s, step, id);
      StaysRegistered(s, step, id);
      assert FinishingOK(s, id);
    }
  }

  lemma StepLogged(s: State, step: Step)
    requires Logged(s.db)
    ensures Logged(NextDb(s, step))
  {
    hide Logged, ApplyOp, OpOf;
    if OpOf(s, step).Some? {
      ApplyKeepsLog(s.db, OpOf(s, step).value);
    }
  }

  // ---------------------------------------------------------------- which write comes next

  predicate IsRunningWrite(s: State, step: Step, id: string) {
    step.WorkerStep? && step.act.RunningWrite? && IsBusy(s, step.w) && At(s, step.w).MarkingRunning? &&
      TransitionOf(s, step.w) == id
  }

  predicate IsFinalWrite(s: State, step: Step, id: string) {
    step.WorkerStep? && step.act.FinalWrite? && IsBusy(s, step.w) && At(s, step.w).Finalizing? &&
      TransitionOf(s, step.w) == id
  }

  predicate IsAbortWrite(s: State, step: Step, id: string) {
    step.AbortWriteStep? && step.id == id && id in s.aborts
  }

  /** The step may write transition `id`, in its turn. */
  ghost predicate InTurn(s: State, step: Step, id: string) {
    var tr, kind := TrailOf(s, id), KindWritten(s, step);
    || (IsAbortWrite(s, step, id) && kind == AsAborted && AsAborted !in tr && EntryAborted(s.progress, s.closed, id))
    || (IsRunningWrite(s, step, id) && kind == AsRunning && AsRunning !in tr && id in s.progress &&
          s.progress[id].started)
    || (IsFinalWrite(s, step, id) && kind == AsFinal && AsFinal !in tr && id in s.closed)
    || (step.FinishStep? && step.id == id && CanFinish(s, id) && !IsRegistered(s, id))
  }

  lemma ClosedKind(s: State, id: string)
    requires Counts(s) && id in s.closed
    ensures KindOfWrite(s.closed[id].progress.transition) == AsFinal
  {
    hide Balanced;
    assert Settled(s.made, s.places, s.calls, id, s.closed[id].progress);
  }

  lemma WritesInTurn(s: State, step: Step, id: string)
    requires Sound(s) && Enabled(s, step) && WritesFor(s, step, id)
    ensures InTurn(s, step, id)
  {
    hide EntryOK, MarkerOK, UnderwayOK, Placed, Counts, Evident, Published, KnownID, CanAcquire, Trail, Fits;
    if step.FinishStep? {
      assert FinishingOK(s, step.id);
    } else if step.AbortWriteStep? {
      assert AbortOK(s, step.id);
    } else {
      assert WriterOK(s, step.w);
      if step.act.FinalWrite? {
        ClosedKind(s, TransitionOf(s, step.w));
      }
    }
  }

  /** The history of transition `id` stays, or gets the write whose turn it is. */
  ghost predicate TrailOK(s: State, step: Step, id: string) {
    Trail(NextDb(s, step).outbox, id) == TrailOf(s, id) ||
      (InTurn(s, step, id) && Trail(NextDb(s, step).outbox, id) == TrailOf(s, id) + [KindWritten(s, step)])
  }

  lemma TrailStep(s: State, step: Step, id: string)
    requires Sound(s) && Enabled(s, step) && !step.CreateStep?
    ensures TrailOK(s, step, id)
  {
    hide Placed, Counts, Evident, Stored, Ordered, Published, Enabled, NextDb, InTurn, WritesFor, KindWritten, Trail,
         Commits;
    StepKeeps(s, step, id);
    if WritesFor(s, step, id) {
      WritesInTurn(s, step, id);
    }
  }

  // ---------------------------------------------------------------- counting the last task

  /** The action counts the last task of its transition. */
  predicate Closes(s: State, step: Step) {
    step.WorkerStep? && step.act.Record? && IsBusy(s, step.w) &&
      FinalOf(s.progress, TransitionOf(s, step.w), OutcomeAt(At(s, step.w)), step.act.now).Some?
  }

  /** A task whose worker has yet to commit the "running" write keeps the transition open. */
  lemma MarkerOpen(s: State, w: nat)
    requires Sound(s) && Working(s, w) && At(s, w).Recording? && TransitionOf(s, w) in s.progress
    requires s.progress[TransitionOf(s, w)].started && AsRunning !in TrailOf(s, TransitionOf(s, w))
    ensures s.progress[TransitionOf(s, w)].remaining > 1
  {
    hide Counts, Evident, Stored, Published, Placed, EntryOK, WriterOK, AbortOK, UnderwayOK, TrailOf, Known;
    assert MarkerOK(s, TransitionOf(s, w));
    Own(s, w);
    OthersOpen(s, w, s.markers[TransitionOf(s, w)]);
  }

  /** So does the task of another worker. */
  lemma WorkerOpen(s: State, w: nat, v: nat)
    requires Sound(s) && Working(s, w) && Working(s, v) && v != w
    requires TransitionOf(s, w) == TransitionOf(s, v) && TransitionOf(s, w) in s.progress
    ensures s.progress[TransitionOf(s, w)].remaining > 1
  {
    hide Counts, Evident, Stored, Ordered, Published, Placed;
    Own(s, w);
    Own(s, v);
    OthersOpen(s, w, TaskOf(s, v));
  }

  /** The history is what a closed entry needs, and no other worker has a task of the transition. */
  ghost predicate ReadyToClose(s: State, w: nat) {
    var id := TransitionOf(s, w);
    && id in s.progress && (s.progress[id].started ==> AsRunning in TrailOf(s, id))
    && (s.progress[id].started || s.progress[id].aborted)
    && forall v: nat :: v != w && Working(s, v) ==> TransitionOf(s, v) != id
  }

  function WorkerIn(step: Step): nat {
    if step.WorkerStep? then step.w else 0
  }

  lemma ClosingFits(s: State, step: Step)
    requires Sound(s) && Enabled(s, step) && Closes(s, step)
    ensures ReadyToClose(s, WorkerIn(step))
  {
    hide Placed, Counts, Evident, Stored, Published, EntryOK, MarkerOK, AbortOK, UnderwayOK, TrailOf, Closes, Enabled;
    var w := WorkerIn(step);
    var id := TransitionOf(s, w);
    IsRecord(s, step);
    assert WriterOK(s, w);
    if s.progress[id].started && AsRunning !in TrailOf(s, id) {
      MarkerOpen(s, w);
    }
    forall v: nat | v != w && Working(s, v) ensures TransitionOf(s, v) != id {
      if TransitionOf(s, v) == id {
        WorkerOpen(s, w, v);
      }
    }
  }

  lemma IsRecord(s: State, step: Step)
    requires Enabled(s, step) && Closes(s, step)
    ensures Working(s, WorkerIn(step)) && At(s, WorkerIn(step)).Recording?
    ensures LastTask(s.progress, TransitionOf(s, WorkerIn(step)))
  {
    hide FinalState, CanAcquire;
  }

  predicate LastTask(progress: map<string, Progress>, id: string) {
    id in progress && progress[id].remaining <= 1
  }

  // ---------------------------------------------------------------- entries

  predicate SameFlags(p: Progress, q: Progress) {
    p.started == q.started && p.aborted == q.aborted
  }

  /** The step marks transition `id` as running. */
  predicate IsMark(s: State, step: Step, id: string) {
    step.WorkerStep? && step.act.Mark? && IsBusy(s, step.w) && TransitionOf(s, step.w) == id &&
      id in s.progress && !s.progress[id].started && !s.progress[id].aborted
  }

  predicate ClosesOwn(s: State, step: Step, id: string) {
    Closes(s, step) && TransitionOf(s, WorkerIn(step)) == id
  }

  /** How a step changes the flags of an entry. */
  ghost predicate FlagChange(s: State, step: Step, id: string, p: Progress, p': Progress) {
    || SameFlags(p, p')
    || (step.AbortStep? && step.id == id && !p.aborted && p'.aborted && p'.started == p.started)
    || (IsMark(s, step, id) && p'.started && !p'.aborted)
  }

  /** How a step changes the entry of transition `id`: it is registered, stays with or without other flags, is closed
      with the same flags, or stays closed. */
  ghost predicate EntryChange(s: State, step: Step, id: string) {
    var progress, closed := NextProgress(s, step), NextClosed(s, step);
    if id in s.progress && id in progress then
      id !in closed && FlagChange(s, step, id, s.progress[id], progress[id])
    else if id in s.progress then
      id in closed && ClosesOwn(s, step, id) && SameFlags(closed[id].progress, s.progress[id])
    else if id in s.closed then id in closed && closed[id] == s.closed[id] && id !in progress
    else id !in closed && (id in progress ==> CanRegister(s, id) && !progress[id].started && !progress[id].aborted)
  }

  lemma EntryStep(s: State, step: Step, id: string)
    requires Counts(s) && EntryOK(s, id) && Enabled(s, step)
    ensures EntryChange(s, step, id)
  {
    hide FinalState, CanAcquire, Counts, Fits, Trail, TrailOf;
    if IsRegistered(s, id) {
      FreshElsewhere(s, id);
    }
  }

  /** A write in its turn keeps the history and the flags in agreement. */
  lemma GrownFits(s: State, step: Step, id: string, p: Progress, done: bool)
    requires Fits(TrailOf(s, id), p, done) && TrailOK(s, step, id)
    requires InTurn(s, step, id) ==>
               (IsAbortWrite(s, step, id) && p.aborted) || (IsRunningWrite(s, step, id) && !done && p.started) ||
                 (IsFinalWrite(s, step, id) && done)
    ensures Fits(Trail(NextDb(s, step).outbox, id), p, done)
  {
    hide NextDb, Trail, KindWritten, Fits;
    var tr, tr' := TrailOf(s, id), Trail(NextDb(s, step).outbox, id);
    if tr' != tr {
      if IsAbortWrite(s, step, id) {
        FitsAbort(tr, p, done);
      } else if IsRunningWrite(s, step, id) {
        FitsRunning(tr, p);
      } else {
        FitsFinal(tr, p);
      }
    }
  }

  /** So do the changes of the flags. */
  lemma FlagsFit(s: State, step: Step, id: string, p: Progress, p': Progress)
    requires Fits(TrailOf(s, id), p, false) && FlagChange(s, step, id, p, p') && id in s.progress && p == s.progress[id]
    ensures Fits(TrailOf(s, id), p', false)
  {
    hide TrailOf;
  }

  lemma ClosedFits(tr: seq<WriteKind>, p: Progress, p': Progress)
    requires Fits(tr, p, false) && SameFlags(p, p') && (p.started ==> AsRunning in tr) && (p.started || p.aborted)
    ensures Fits(tr, p', true)
  {
  }

  lemma NewFits(p: Progress)
    requires !p.started && !p.aborted
    ensures Fits([AsCreated], p, false)
  {
  }

  /** The steps that write and those that change an entry are different ones. */
  lemma WriteOrChange(s: State, step: Step, id: string)
    requires InTurn(s, step, id)
    ensures NextProgress(s, step) == s.progress && NextClosed(s, step) == s.closed
    ensures IsRegistered(s, id) || (step.FinishStep? && CanFinish(s, id))
  {
    hide TrailOf;
  }

  lemma WrittenEntry(s: State, step: Step, id: string)
    requires EntryFits(s.progress, s.closed, TrailOf(s, id), id) && TrailOK(s, step, id) && InTurn(s, step, id)
    ensures EntryFits(s.progress, s.closed, Trail(NextDb(s, step).outbox, id), id)
  {
    hide NextDb, TrailOK, KindWritten, Fits, TrailOf;
    if id in s.progress {
      GrownFits(s, step, id, s.progress[id], false);
    } else if id in s.closed {
      GrownFits(s, step, id, s.closed[id].progress, true);
    }
  }

  lemma ChangedEntry(s: State, step: Step, id: string)
    requires Sound(s) && Enabled(s, step) && EntryOK(s, id)
    ensures EntryFits(NextProgress(s, step), NextClosed(s, step), TrailOf(s, id), id)
  {
    hide NextProgress, NextClosed, Placed, Counts, Evident, Stored, Published, Ordered, Enabled, TrailOf, Fits,
         FlagChange, Closes;
    EntryStep(s, step, id);
    var progress, closed := NextProgress(s, step), NextClosed(s, step);
    if id in s.progress && id in progress {
      FlagsFit(s, step, id, s.progress[id], progress[id]);
    } else if id in s.progress {
      ClosingFits(s, step);
      ClosedFits(TrailOf(s, id), s.progress[id], closed[id].progress);
    } else if id in progress {
      NewFits(progress[id]);
    }
  }

  /** A call that has yet to register its transition has only the creation behind it. */
  lemma FirstWrite(s: State, step: Step, id: string)
    requires Sound(s) && Enabled(s, step) && !step.CreateStep? && EntryOK(s, id) && TrailOK(s, step, id)
    ensures CanRegister(Apply(s, step), id) ==> Trail(NextDb(s, step).outbox, id) == [AsCreated]
  {
    hide Placed, Counts, Evident, Stored, Published, Ordered, NextDb, NextMade, NextPlaces, NextWork, NextCalls,
         NextProgress, NextClosed, NextMarkers, NextCanceled, NextAborts, NextQueue, NextWorkers, NextLimiters, Enabled,
         TrailOf, KindWritten, EntryFits, InTurn;
    if CanRegister(Apply(s, step), id) {
      CallsStay(s, step, id);
      if IsRegistered(s, id) {
        FreshElsewhere(s, id);
      }
      if InTurn(s, step, id) {
        WriteOrChange(s, step, id);
      }
    }
  }

  /** What a step does to the history fits what it does to the entry. */
  lemma EntryKept(s: State, step: Step, id: string)
    requires Sound(s) && Enabled(s, step) && !step.CreateStep?
    ensures EntryOK(Apply(s, step), id)
  {
    hide NextDb, NextMade, NextPlaces, NextWork, NextCalls, NextProgress, NextClosed, NextMarkers, NextCanceled,
         NextAborts, NextQueue, NextWorkers, NextLimiters, Placed, Counts, Evident, Stored, Published, MarkerOK,
         WriterOK, AbortOK, UnderwayOK, Trail, Enabled, KindWritten, InTurn, EntryFits;
    assert EntryOK(s, id);
    TrailStep(s, step, id);
    if InTurn(s, step, id) {
      WriteOrChange(s, step, id);
      WrittenEntry(s, step, id);
    } else {
      ChangedEntry(s, step, id);
    }
    FirstWrite(s, step, id);
  }

  // ---------------------------------------------------------------- markers

  /** The task is dropped, or its worker has still to write "running", or has just done so. */
  ghost predicate MarkerStays(s: State, step: Step, t: string) {
    var p := NextPlaces(s, step);
    && t in p && t in s.places
    && (p[t].Dropped? ||
          (p[t] == s.places[t] && s.places[t].Held? &&
             (step.WorkerStep? && step.w == s.places[t].worker ==>
                IsRunningWrite(s, step, TransitionOf(s, step.w)) && TaskOf(s, step.w) == t
                && !GivesUpTask(s, s.workers[step.w], step.act))))
  }

  /** While its "running" write is pending a worker can only make it. */
  lemma OnlyWrites(s: State, w: nat, act: Action)
    requires CanAct(s, w, act)
    ensures At(s, w).MarkingRunning? ==> act.RunningWrite? && IsRunningWrite(s, WorkerStep(w, act), TransitionOf(s, w))
    ensures act.Record? || act.Mark? || act.RunningWrite? ==> Working(s, w)
    ensures act.Dequeue? ==> CanDequeue(s, w)
    ensures w < |s.workers|
  {
  }

  lemma WorkerMarker(s: State, w: nat, act: Action, t: string)
    requires Placed(s) && CanAct(s, w, act) && t in s.places
    requires s.places[t].Dropped? || InCharge(s, s.places[t])
    ensures MarkerStays(s, WorkerStep(w, act), t)
  {
    hide Placed, Known, Update, OutcomeAt, CanAct, Created, IsRunningWrite;
    OnlyWrites(s, w, act);
    if act.Dequeue? {
      HeadOfQueue(s);
    } else if IsBusy(s, w) {
      Own(s, w);
    }
  }

  lemma MarkerPlace(s: State, step: Step, t: string)
    requires Placed(s) && Enabled(s, step) && !step.CreateStep? && t in s.places
    requires s.places[t].Dropped? || InCharge(s, s.places[t])
    ensures MarkerStays(s, step, t)
  {
    hide NextPlaces, Placed, CanAct;
    if step.WorkerStep? {
      WorkerMarker(s, step.w, step.act, t);
      assert step == WorkerStep(step.w, step.act);
    } else {
      CallPlaces(s, step, t);
    }
  }

  /** The step makes a worker give its task up. */
  predicate LosesTask(s: State, step: Step) {
    step.WorkerStep? && step.w < |s.workers| && GivesUpTask(s, s.workers[step.w], step.act)
  }

  /** A worker that goes on after its "running" write has committed it. */
  lemma RunningCommits(s: State, step: Step, id: string)
    requires Sound(s) && Enabled(s, step) && IsRunningWrite(s, step, id)
    ensures !LosesTask(s, step) ==> AsRunning in Trail(NextDb(s, step).outbox, id)
  {
    hide Placed, Counts, Evident, Stored, Published, EntryOK, MarkerOK, AbortOK, UnderwayOK, Update, Trail, Trimmed;
    assert WriterOK(s, step.w);
    WrittenKnown(s, step, id);
    var snapshot := At(s, step.w).snapshot;
    UpdateEffect(s.db, snapshot, step.act.now, step.act.fault);
    UpdateTrail(s.db, snapshot, step.act.now, step.act.fault, id);
  }

  /** The marker of a transition that was started before the step. */
  ghost predicate OldMarker(s: State, id: string) {
    && id in s.progress && s.progress[id].started
    && id in s.markers && s.markers[id] in s.made && s.made[s.markers[id]].task.transitionID == id
    && s.markers[id] in s.places
    && (s.places[s.markers[id]].Dropped? || InCharge(s, s.places[s.markers[id]]))
  }

  lemma MarkerSame(s: State, step: Step, id: string)
    requires OldMarker(s, id)
    ensures id in NextMarkers(s, step) && NextMarkers(s, step)[id] == s.markers[id]
  {
    hide Started, InCharge;
  }

  /** The other workers stand still. */
  lemma OthersStand(s: State, step: Step, v: nat)
    requires v < |s.workers| && !By(step, v)
    ensures v < |NextWorkers(s, step)| && NextWorkers(s, step)[v] == s.workers[v]
  {
    hide NextWorker;
  }

  lemma StillInCharge(s: State, step: Step, id: string)
    requires Sound(s) && Enabled(s, step) && !step.CreateStep? && OldMarker(s, id)
    requires AsRunning !in Trail(NextDb(s, step).outbox, id)
    ensures MarkerOK(Apply(s, step), id)
  {
    hide NextDb, NextPlaces, NextWork, NextCalls, NextProgress, NextClosed, NextCanceled, NextAborts, NextQueue,
         NextMarkers, NextWorkers, NextLimiters, Placed, Counts, Evident, Stored, Published, Ordered, Trail, Enabled,
         GivesUpTask, IsRunningWrite;
    var t := s.markers[id];
    MarkerPlace(s, step, t);
    MarkerSame(s, step, id);
    if step.WorkerStep? && s.places[t] == Held(step.w) {
      MarkerTransition(s, step.w, id);
      if IsRunningWrite(s, step, TransitionOf(s, step.w)) && !LosesTask(s, step) {
        RunningCommits(s, step, id);
      }
    } else if s.places[t].Held? {
      OthersStand(s, step, s.places[t].worker);
    }
  }

  lemma MarkerTransition(s: State, w: nat, id: string)
    requires Placed(s) && OldMarker(s, id) && s.places[s.markers[id]] == Held(w) && IsBusy(s, w)
    ensures TransitionOf(s, w) == id && TaskOf(s, w) == s.markers[id]
  {
    hide Placed;
    Own(s, w);
  }

  /** The marker of a transition that the step marks. */
  lemma NewMarker(s: State, step: Step, id: string)
    requires Sound(s) && Enabled(s, step) && IsMark(s, step, id)
    ensures MarkerOK(Apply(s, step), id)
  {
    hide NextDb, NextWork, NextCalls, NextProgress, NextClosed, NextCanceled, NextAborts, NextQueue, NextLimiters,
         Placed, Counts, Evident, Stored, Published, Ordered, Trail, TrailOf;
    Own(s, step.w);
  }

  lemma MarkerKept(s: State, step: Step, id: string)
    requires Sound(s) && Enabled(s, step) && !step.CreateStep?
    ensures MarkerOK(Apply(s, step), id)
  {
    hide NextDb, NextMade, NextPlaces, NextWork, NextCalls, NextProgress, NextClosed, NextMarkers, NextCanceled,
         NextAborts, NextQueue, NextWorkers, NextLimiters, Placed, Counts, Evident, Stored, Published, EntryFits,
         WriterOK, AbortOK, UnderwayOK, Trail, Enabled, KindWritten, InTurn, InCharge;
    assert MarkerOK(s, id) && EntryOK(s, id);
    EntryStep(s, step, id);
    TrailStep(s, step, id);
    if IsMark(s, step, id) {
      NewMarker(s, step, id);
    } else if id in s.progress && s.progress[id].started && AsRunning !in Trail(NextDb(s, step).outbox, id) {
      StillInCharge(s, step, id);
    }
  }

  // ---------------------------------------------------------------- writers

  /** Two workers are never in charge of the same write. */
  lemma OneWriter(s: State, step: Step, v: nat)
    requires Sound(s) && IsBusy(s, v) && step.WorkerStep? && !By(step, v)
    ensures At(s, v).MarkingRunning? ==> !IsRunningWrite(s, step, TransitionOf(s, v))
    ensures At(s, v).Finalizing? ==> !IsFinalWrite(s, step, TransitionOf(s, v))
  {
    hide Placed, Counts, Evident, Stored, Published, EntryOK, MarkerOK, AbortOK, UnderwayOK, TrailOf;
    assert WriterOK(s, v) && WriterOK(s, step.w);
    Own(s, v);
    if IsBusy(s, step.w) {
      Own(s, step.w);
    }
  }

  /** The entry and the history of a transition that another worker has a write for. */
  lemma WriterEntry(s: State, step: Step, v: nat)
    requires Sound(s) && Enabled(s, step) && !step.CreateStep? && IsBusy(s, v) && !By(step, v)
    ensures var id := TransitionOf(s, v);
            && EntryOK(s, id) && EntryChange(s, step, id) && TrailOK(s, step, id)
            && (Working(s, v) ==> !ClosesOwn(s, step, id))
  {
    hide Placed, Counts, Evident, Stored, Published, EntryOK, MarkerOK, AbortOK, UnderwayOK, WriterOK, Enabled,
         TrailOK, EntryChange, TrailOf, FinalOf;
    var id := TransitionOf(s, v);
    assert EntryOK(s, id);
    EntryStep(s, step, id);
    TrailStep(s, step, id);
    if ClosesOwn(s, step, id) {
      ClosingFits(s, step);
    }
  }

  lemma OtherWriter(s: State, step: Step, v: nat)
    requires Sound(s) && Enabled(s, step) && !step.CreateStep? && IsBusy(s, v) && !By(step, v)
    ensures WriterAfter(s, step, v, WorkerAt(s.workers, v))
  {
    hide NextDb, NextProgress, NextClosed, NextMarkers, Placed, Counts, Evident, Stored, Published, MarkerOK, AbortOK,
         UnderwayOK, Trail, Enabled, KindWritten, Closes, Fits;
    assert WriterOK(s, v);
    WriterEntry(s, step, v);
    if step.WorkerStep? {
      OneWriter(s, step, v);
    }
    if At(s, v).MarkingRunning? {
      WriterMarker(s, v);
      MarkerSame(s, step, TransitionOf(s, v));
    }
  }

  /** What the invariant says of worker `w` once it is `wk`. */
  ghost predicate WriterAfter(s: State, step: Step, w: nat, wk: Worker) {
    var id := if wk.Busy? then wk.item.transitionID else "";
    WriterFits(NextProgress(s, step), NextClosed(s, step), NextMarkers(s, step),
               Trail(NextDb(s, step).outbox, id), wk, w)
  }

  lemma WriterMarker(s: State, v: nat)
    requires Sound(s) && IsBusy(s, v) && At(s, v).MarkingRunning?
    ensures OldMarker(s, TransitionOf(s, v))
  {
    hide Counts, Evident, Stored, Published, Placed, EntryOK, MarkerOK, AbortOK, UnderwayOK, TrailOf;
    assert WriterOK(s, v);
    Own(s, v);
  }

  /** The section of a worker that marks its transition. */
  lemma MarkWriter(s: State, w: nat, now: Time)
    requires Sound(s) && CanAct(s, w, Mark(now))
    ensures WriterAfter(s, WorkerStep(w, Mark(now)), w, NextWorker(s, WorkerAt(s.workers, w), Mark(now)))
  {
    hide Placed, Counts, Evident, Stored, Published, MarkerOK, WriterOK, AbortOK, UnderwayOK, Trail, Legal,
         NextTask, Active, Balanced;
    var id := TransitionOf(s, w);
    assert EntryOK(s, id);
    HeldIsActive(s, w);
    EntryActive(s, id);
  }

  lemma RecordWriter(s: State, w: nat, now: Time)
    requires Sound(s) && CanAct(s, w, Record(now))
    ensures WriterAfter(s, WorkerStep(w, Record(now)), w, NextWorker(s, WorkerAt(s.workers, w), Record(now)))
  {
    hide Placed, Counts, Evident, Stored, Published, MarkerOK, WriterOK, AbortOK, UnderwayOK, Trail, Legal,
         NextTask, FinalState, Active, Balanced;
    var id := TransitionOf(s, w);
    assert EntryOK(s, id);
    HeldIsActive(s, w);
    EntryActive(s, id);
  }

  /** Whoever is past its mark stays so until it records. */
  lemma InsideStage(s: State, w: nat, act: Action)
    requires CanAct(s, w, act) && !act.Mark? && !act.Record?
    ensures var wk, wk' := WorkerAt(s.workers, w), NextWorker(s, WorkerAt(s.workers, w), act);
            wk'.Busy? && !wk'.at.Fetched? && !wk'.at.Releasing? ==>
              && wk.Busy? && wk'.item == wk.item && !wk'.at.MarkingRunning? && !wk'.at.Finalizing?
              && !wk.at.Fetched? && !wk.at.Finalizing? && !wk.at.Releasing?
  {
    hide TrimSpace, EqualFold, FinalOf, MarkOf, Update, SavedRow, SettledRow, ContextEnded, NextTask;
  }

  lemma OwnWriter(s: State, w: nat, act: Action)
    requires Sound(s) && CanAct(s, w, act)
    ensures WriterAfter(s, WorkerStep(w, act), w, NextWorker(s, WorkerAt(s.workers, w), act))
  {
    hide Placed, Counts, Evident, Stored, Published, EntryOK, MarkerOK, AbortOK, UnderwayOK, Trail, CanAct, NextWorker,
         NextDb, TrailOf;
    if act.Mark? {
      MarkWriter(s, w, act.now);
    } else if act.Record? {
      RecordWriter(s, w, act.now);
    } else {
      InsideStage(s, w, act);
      assert WriterOK(s, w);
    }
  }

  lemma WriterKept(s: State, step: Step, v: nat)
    requires Sound(s) && Enabled(s, step) && !step.CreateStep?
    ensures WriterOK(Apply(s, step), v)
  {
    hide NextDb, NextMade, NextPlaces, NextWork, NextCalls, NextProgress, NextClosed, NextCanceled, NextAborts,
         NextQueue, NextMarkers, NextLimiters, Sound, Trail, NextWorker, CanAct, WriterFits;
    if By(step, v) {
      OwnWriter(s, v, step.act);
      assert step == WorkerStep(v, step.act);
    } else if IsBusy(s, v) {
      OtherWriter(s, step, v);
    } else {
      NoWriter(s, step, v);
    }
  }

  lemma NoWriter(s: State, step: Step, v: nat)
    requires !IsBusy(s, v)
    ensures WriterAfter(s, step, v, WorkerAt(s.workers, v))
  {
    hide NextDb, NextProgress, NextClosed, NextMarkers, Trail;
  }

  // ---------------------------------------------------------------- aborts and tasks under way

  predicate IsAbortOf(step: Step, id: string) {
    step.AbortStep? && step.id == id
  }

  /** Whether an entry is aborted only changes with the abort of its transition. */
  lemma AbortedStep(s: State, step: Step, id: string)
    requires Counts(s) && EntryOK(s, id) && Enabled(s, step)
    ensures EntryAborted(NextProgress(s, step), NextClosed(s, step), id) <==>
            EntryAborted(s.progress, s.closed, id) || IsAbortOf(step, id)
  {
    hide Counts, TrailOf, CanAct, Fits;
    EntryStep(s, step, id);
    if !IsAbortOf(step, id) {
      hide NextProgress, NextClosed;
    }
  }

  lemma AbortKept(s: State, step: Step, id: string)
    requires Sound(s) && Enabled(s, step) && !step.CreateStep?
    ensures AbortOK(Apply(s, step), id)
  {
    hide NextDb, NextMade, NextPlaces, NextWork, NextCalls, NextProgress, NextClosed, NextCanceled, NextQueue,
         NextWorkers, NextMarkers, NextLimiters, Placed, Counts, Evident, Stored, Published, MarkerOK, WriterOK,
         UnderwayOK, Trail, EntryFits, KindWritten, CanAct;
    assert AbortOK(s, id) && EntryOK(s, id);
    AbortedStep(s, step, id);
    TrailStep(s, step, id);
    if step.AbortStep? && step.id == id {
      FirstAbort(s, id, step.now);
    }
  }

  /** An entry is aborted once. */
  lemma FirstAbort(s: State, id: string, now: Time)
    requires Counts(s) && EntryOK(s, id) && Abortable(s.progress, id)
    ensures AsAborted !in TrailOf(s, id)
    ensures var t := Aborted(s.progress[id], now).transition;
            t.id == id && KindOfWrite(t) == AsAborted
  {
    hide Counts, TrailOf, Legal;
    EntryActive(s, id);
  }

  /** Only a registered call offers tasks or gives them up. */
  lemma OfferRegistered(s: State, id: string)
    requires Counts(s) && CanEnqueue(s, id)
    ensures id in s.progress
  {
    hide Active, Fresh, Settled;
  }

  lemma UnderwayKept(s: State, step: Step, t: string)
    requires Sound(s) && Enabled(s, step) && !step.CreateStep?
    ensures UnderwayOK(Apply(s, step), t)
  {
    hide NextDb, NextPlaces, NextWork, NextCalls, NextProgress, NextClosed, NextCanceled, NextAborts, NextQueue,
         NextWorkers, NextMarkers, NextLimiters, Placed, Counts, Evident, Stored, Published, MarkerOK, WriterOK,
         EntryOK, AbortOK, CanAct, NextMade;
    assert UnderwayOK(s, t);
    SameTasks(s, step);
    if t in s.made {
      StaysRegistered(s, step, s.made[t].task.transitionID);
      if t in s.places && s.places[t].Waiting? {
        WaitingMoves(s, step, t);
      }
    }
  }

  /** A waiting task is moved only by its own call. */
  lemma WaitingMoves(s: State, step: Step, t: string)
    requires Placed(s) && Counts(s) && Enabled(s, step) && !step.CreateStep? && t in s.made && t in s.places
    requires s.places[t].Waiting?
    ensures t in NextPlaces(s, step)
    ensures NextPlaces(s, step)[t].Waiting? || s.made[t].task.transitionID in s.progress
  {
    hide Placed, Counts, DropAll, Known, CanMove, GivesUpTask, OutcomeAt;
    if step.WorkerStep? {
      if step.act.Dequeue? {
        HeadOfQueue(s);
      } else if IsBusy(s, step.w) {
        OwnsStill(s, step.w, step.act);
        NeverGivesUp(s, step.w, step.act);
        Own(s, step.w);
      }
    } else if step.EnqueueStep? {
      OfferRegistered(s, step.id);
      FirstOffered(s, step.id);
      KnownKeys(s.made, s.calls[step.id].items[0]);
    } else if step.EnqueueFailStep? {
      OfferRegistered(s, step.id);
      GivesUp(s, step.id);
    }
  }

  lemma StepOrdered(s: State, step: Step)
    requires Sound(s) && Enabled(s, step) && !step.CreateStep?
    ensures Ordered(Apply(s, step))
  {
    hide Apply, Sound, Enabled, EntryOK, MarkerOK, WriterOK, AbortOK, UnderwayOK;
    var s' := Apply(s, step);
    forall id ensures EntryOK(s', id) { EntryKept(s, step, id); }
    forall id ensures MarkerOK(s', id) { MarkerKept(s, step, id); }
    forall w: nat ensures WriterOK(s', w) { WriterKept(s, step, w); }
    forall id ensures AbortOK(s', id) { AbortKept(s, step, id); }
    forall t ensures UnderwayOK(s', t) { UnderwayKept(s, step, t); }
  }
}
