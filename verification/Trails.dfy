/** The committed history of one transition and of one task, read off the outbox. */
module Trails {
  import opened Text
  import opened Records
  import opened TransitionStore
  import opened OutboxReplay
  import opened Sections

  /** Which write a lifecycle event comes from. Only the write that ends a transition has a completion time. */
  datatype WriteKind = AsCreated | AsRunning | AsAborted | AsFinal | AsOther

  function KindOfWrite(t: Transition): WriteKind {
    if t.completedAt.Some? then AsFinal
    else if t.state.TPending? then AsCreated
    else if t.state.TRunning? then AsRunning
    else if t.state.TCanceled? then AsAborted
    else AsOther
  }

  /** The writes committed for transition `id`, in order. */
  function Trail(outbox: seq<Event>, id: string): seq<WriteKind> {
    if outbox == [] then []
    else
      var before := Trail(outbox[..|outbox| - 1], id);
      var e := outbox[|outbox| - 1];
      if e.Lifecycle? && e.transitionID == id then before + [KindOfWrite(e.transition)] else before
  }

  /** The results published for task `t`, in order. */
  function Results(outbox: seq<Event>, t: string): seq<TaskState> {
    if outbox == [] then []
    else
      var before := Results(outbox[..|outbox| - 1], t);
      var e := outbox[|outbox| - 1];
      if e.TaskResult? && e.taskID == t then before + [e.task.state] else before
  }

  lemma OneMore(outbox: seq<Event>, e: Event, id: string)
    ensures Trail(outbox + [e], id) ==
            if e.Lifecycle? && e.transitionID == id then Trail(outbox, id) + [KindOfWrite(e.transition)]
              else Trail(outbox, id)
    ensures Results(outbox + [e], id) ==
            if e.TaskResult? && e.taskID == id then Results(outbox, id) + [e.task.state] else Results(outbox, id)
  {
    assert (outbox + [e])[..|outbox|] == outbox;
  }

  /** Replay keeps the last write of each history, and the last result. */
  lemma {:induction false} LastMark(outbox: seq<Event>, id: string)
    ensures Trail(outbox, id) != [] <==> id in Replayed(outbox)
    ensures id in Replayed(outbox) ==> Trail(outbox, id)[|Trail(outbox, id)| - 1] == KindOfWrite(Replayed(outbox)[id])
    ensures Results(outbox, id) != [] <==> id in ReplayedResults(outbox)
  {
    if outbox != [] {
      LastMark(outbox[..|outbox| - 1], id);
    }
  }

  /** The stored row of a transition is the last write of its history; a transition without a row has no history, and a
      task without a row no result. */
  lemma RowIsLast(db: Database, id: string)
    requires Logged(db)
    ensures id in db.transitions ==>
              var tr := Trail(db.outbox, id);
              tr != [] && tr[|tr| - 1] == KindOfWrite(db.transitions[id])
    ensures id !in db.transitions ==> Trail(db.outbox, id) == []
    ensures id !in db.tasks ==> Results(db.outbox, id) == []
  {
    hide Trail, Results, Replayed, ReplayedResults, Keyed, OneTaskPerNode, ResultLogged;
    LastMark(db.outbox, id);
  }

  /** Every history the engine can commit: creation first, each other write at most once, "running" never after the
      closing write. The abort write can stand anywhere, even after the closing one. */
  predicate Legal(tr: seq<WriteKind>) {
    || tr == [AsCreated]
    || tr == [AsCreated, AsRunning]
    || tr == [AsCreated, AsRunning, AsFinal]
    || tr == [AsCreated, AsFinal]
    || tr == [AsCreated, AsAborted]
    || tr == [AsCreated, AsAborted, AsRunning]
    || tr == [AsCreated, AsRunning, AsAborted]
    || tr == [AsCreated, AsAborted, AsFinal]
    || tr == [AsCreated, AsFinal, AsAborted]
    || tr == [AsCreated, AsAborted, AsRunning, AsFinal]
    || tr == [AsCreated, AsRunning, AsAborted, AsFinal]
    || tr == [AsCreated, AsRunning, AsFinal, AsAborted]
  }

  /** What the flags of a progress entry, and whether it is closed, say about the history. */
  predicate Fits(tr: seq<WriteKind>, p: Progress, done: bool) {
    && Legal(tr)
    && (AsRunning in tr ==> p.started)
    && (AsAborted in tr ==> p.aborted)
    && (AsFinal in tr ==> done)
    && (done && p.started ==> AsRunning in tr)
    && (done ==> p.started || p.aborted)
  }

  lemma FitsRunning(tr: seq<WriteKind>, p: Progress)
    requires Fits(tr, p, false) && p.started && AsRunning !in tr
    ensures Fits(tr + [AsRunning], p, false) && AsRunning in tr + [AsRunning]
  {
  }

  lemma FitsAbort(tr: seq<WriteKind>, p: Progress, done: bool)
    requires Fits(tr, p, done) && p.aborted && AsAborted !in tr
    ensures Fits(tr + [AsAborted], p, done) && (AsRunning in tr + [AsAborted] <==> AsRunning in tr)
    ensures AsFinal in tr + [AsAborted] <==> AsFinal in tr
  {
  }

  lemma FitsFinal(tr: seq<WriteKind>, p: Progress)
    requires Fits(tr, p, true) && AsFinal !in tr
    ensures Fits(tr + [AsFinal], p, true) && (AsAborted in tr + [AsFinal] <==> AsAborted in tr)
    ensures AsRunning in tr + [AsFinal] <==> AsRunning in tr
  {
  }

  // ---------------------------------------------------------------- what one store call adds

  /** The transition an `UpdateTransition` of `t` publishes. */
  function Sent(t: Transition, now: Time): Transition {
    var c := CleanTransition(t);
    CleanTransition(if c.updatedAt == 0 then c.(updatedAt := now) else c)
  }

  predicate Committed(db: Database, after: Database, t: Transition, now: Time) {
    after.outbox == db.outbox + [Lifecycle(t.id, Sent(t, now))]
  }

  /** The update of `t` is committed. */
  predicate Lands(db: Database, t: Transition, fault: Fault) {
    t.id != "" && t.id in db.transitions && !fault.BeforeCommit?
  }

  lemma UpdateEffect(db: Database, t: Transition, now: Time, fault: Fault)
    requires Trimmed(t.id)
    ensures var (after, r) := Update(db, t, now, fault);
            && after.tasks == db.tasks
            && after.transitions.Keys == db.transitions.Keys
            && (if Lands(db, t, fault) then Committed(db, after, t, now) else after == db)
            && (r.Ok? <==> Lands(db, t, fault) && fault.NoFault?)
            && KindOfWrite(Sent(t, now)) == KindOfWrite(t)
  {
    hide TrimSpace, Trimmed;
    assert TrimSpace(t.id) == t.id;
  }

  /** For the transition itself a committed update is one more write; other transitions and all tasks are as before. */
  lemma UpdateTrail(db: Database, t: Transition, now: Time, fault: Fault, id: string)
    requires Trimmed(t.id)
    ensures var after := Update(db, t, now, fault).0;
            && Results(after.outbox, id) == Results(db.outbox, id)
            && Trail(after.outbox, id) ==
              if id == t.id && Lands(db, t, fault) then Trail(db.outbox, id) + [KindOfWrite(t)]
                else Trail(db.outbox, id)
  {
    hide Update, Sent;
    UpdateEffect(db, t, now, fault);
    OneMore(db.outbox, Lifecycle(t.id, Sent(t, now)), id);
  }

  predicate SameEnd(row: Transition, t: Transition) {
    && row.state == t.state && row.completedAt == t.completedAt && row.dryRun == t.dryRun
    && row.targetCount == t.targetCount && row.successCount == t.successCount && row.failureCount == t.failureCount
  }

  /** A committed update leaves what it was given, but for the creation time. */
  lemma UpdatedTransition(db: Database, t: Transition, now: Time, fault: Fault, id: string)
    requires Trimmed(t.id) && t.id != ""
    ensures var rows := Update(db, t, now, fault).0.transitions;
            id in db.transitions ==>
              && id in rows && rows[id].createdAt == db.transitions[id].createdAt
              && if id == t.id && !fault.BeforeCommit? then SameEnd(rows[id], t) else rows[id] == db.transitions[id]
  {
    hide TrimSpace, Trimmed;
    assert TrimSpace(t.id) == t.id;
  }

  /** The task an `UpdateTransitionTask` of `t` writes. */
  function Written(t: Task, now: Time): Task {
    var c := CleanTask(t);
    if c.updatedAt == 0 then c.(updatedAt := now) else c
  }

  predicate TaskCommitted(db: Database, after: Database, t: Task, now: Time) {
    var u := Written(t, now);
    && t.id in db.tasks
    && after.tasks == db.tasks[t.id := UpdatedTaskRow(db.tasks[t.id], u)]
    && after.outbox ==
      db.outbox + (if Terminal(t.state) && TaskResultEvent(u).Ok? then [TaskResultEvent(u).value] else [])
    && (Terminal(t.state) ==> TaskResultEvent(u).Ok?)
  }

  lemma UpdateTaskEffect(db: Database, t: Task, now: Time, fault: Fault)
    requires Trimmed(t.id)
    ensures var (after, r) := UpdateTask(db, t, now, fault);
            && after.transitions == db.transitions
            && (r.Err? ==> after == db)
            && (r.Ok? ==> TaskCommitted(db, after, t, now) && r.value == Written(t, now))
  {
    hide TrimSpace, Updatable, TaskResultEvent, UpdatedTaskRow, Terminal;
    assert TrimSpace(t.id) == t.id;
    var (after, r) := UpdateTask(db, t, now, fault);
    assert db.outbox + [] == db.outbox;
  }

  lemma WrittenEvent(t: Task, now: Time)
    requires Trimmed(t.id) && TaskResultEvent(Written(t, now)).Ok?
    ensures var e := TaskResultEvent(Written(t, now)).value;
            e.TaskResult? && e.taskID == t.id && e.task.state == t.state
  {
    hide TrimSpace;
    assert TrimSpace(t.id) == t.id;
  }

  /** A task update publishes at most its own result, and only with a terminal row. */
  lemma UpdateTaskTrail(db: Database, t: Task, now: Time, fault: Fault, id: string)
    requires Trimmed(t.id)
    ensures var (after, r) := UpdateTask(db, t, now, fault);
            && Trail(after.outbox, id) == Trail(db.outbox, id)
            && after.transitions == db.transitions
            && after.tasks.Keys == db.tasks.Keys
            && (id != t.id ==>
                  Results(after.outbox, id) == Results(db.outbox, id) &&
                  (id in db.tasks ==> after.tasks[id] == db.tasks[id]))
            && (id == t.id ==>
                  || (r.Err? && after.tasks == db.tasks && Results(after.outbox, id) == Results(db.outbox, id))
                  || (&& r.Ok? && r.value.state == t.state
                      && id in db.tasks && id in after.tasks && after.tasks[id] == UpdatedTaskRow(db.tasks[id], r.value)
                      && Results(after.outbox, id) == Results(db.outbox, id) + if Terminal(t.state) then [t.state]
                        else []))
  {
    hide TrimSpace, Trimmed, Updatable, TaskResultEvent, UpdateTask, Written;
    UpdateTaskEffect(db, t, now, fault);
    var (after, r) := UpdateTask(db, t, now, fault);
    if r.Ok? {
      WrittenState(t, now);
      if Terminal(t.state) {
        WrittenEvent(t, now);
        OneMore(db.outbox, TaskResultEvent(Written(t, now)).value, id);
      } else {
        assert after.outbox == db.outbox;
        assert Results(db.outbox, id) + [] == Results(db.outbox, id);
      }
    }
  }

  lemma WrittenState(t: Task, now: Time)
    ensures Written(t, now).state == t.state
  {
  }
}
