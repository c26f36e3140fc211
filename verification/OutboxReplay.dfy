/** Reading the outbox from the start rebuilds the transition tables, whatever calls were made
    and whichever of them failed. */
module OutboxReplay {
  import opened Text
  import opened Records
  import opened TransitionStore

  /** Fold of the lifecycle events by transition id, the last one winning. */
  function Replayed(outbox: seq<Event>): map<string, Transition> {
    if outbox == [] then map[]
    else
      var before := Replayed(outbox[..|outbox| - 1]);
      match outbox[|outbox| - 1]
      case Lifecycle(id, t) => before[id := t]
      case TaskResult(_, _, _, _) => before
  }

  /** Fold of the task-result events by task id, the last one winning. */
  function ReplayedResults(outbox: seq<Event>): map<string, Task> {
    if outbox == [] then map[]
    else
      var before := ReplayedResults(outbox[..|outbox| - 1]);
      match outbox[|outbox| - 1]
      case Lifecycle(_, _) => before
      case TaskResult(_, _, id, t) => before[id := t]
  }

  /** A replayed transition agrees with its row on every column an update writes. */
  ghost predicate TransitionsLogged(db: Database) {
    var r := Replayed(db.outbox);
    && r.Keys == db.transitions.Keys
    && forall id :: id in r ==> r[id].(createdAt := db.transitions[id].createdAt) == db.transitions[id]
  }

  /** The row of a terminal task is the last result published for it, on every stored column but
      `created_at`. */
  ghost predicate ResultLogged(db: Database, id: string) {
    var r := ReplayedResults(db.outbox);
    id in db.tasks && Terminal(db.tasks[id].state) ==>
      id in r && Columns(r[id]).(createdAt := db.tasks[id].createdAt) == db.tasks[id]
  }

  ghost predicate Keyed(db: Database) {
    && (forall id :: id in db.transitions ==> db.transitions[id].id == id)
    && (forall id :: id in db.tasks ==> db.tasks[id].id == id)
  }

  /** UNIQUE (transition_id, node_id). */
  ghost predicate OneTaskPerNode(tasks: map<string, Task>) {
    forall a, b :: a in tasks && b in tasks && a != b ==>
      tasks[a].transitionID != tasks[b].transitionID || tasks[a].nodeID != tasks[b].nodeID
  }

  ghost predicate Logged(db: Database) {
    && Keyed(db)
    && OneTaskPerNode(db.tasks)
    && TransitionsLogged(db)
    && (forall id :: id in db.tasks ==> ResultLogged(db, id))
    && ReplayedResults(db.outbox).Keys <= db.tasks.Keys
  }

  lemma ReplayOne(outbox: seq<Event>, e: Event)
    ensures Replayed(outbox + [e]) == if e.Lifecycle? then Replayed(outbox)[e.transitionID := e.transition]
      else Replayed(outbox)
    ensures ReplayedResults(outbox + [e]) == if e.TaskResult? then ReplayedResults(outbox)[e.taskID := e.task]
      else ReplayedResults(outbox)
  {
    assert (outbox + [e])[..|outbox|] == outbox;
  }

  predicate Tidy(t: Task) {
    && Trimmed(t.id) && Trimmed(t.transitionID) && Trimmed(t.nodeID) && Trimmed(t.bmcID) && Trimmed(t.bmcEndpoint)
    && Trimmed(t.operation) && Trimmed(t.finalPowerState) && Trimmed(t.errorDetail)
  }

  ghost predicate AllTidy(news: seq<Task>) {
    forall i :: 0 <= i < |news| ==> Tidy(news[i])
  }

  /** A result event carries the task it was built from, the two fields that are not stored included. */
  lemma EventColumns(t: Task)
    requires Tidy(t) && TaskResultEvent(t).Ok?
    ensures var e := TaskResultEvent(t).value;
            && e.TaskResult? && e.taskID == t.id && Columns(e.task) == Columns(t)
            && e.transitionID == t.transitionID && e.nodeID == t.nodeID
            && Trimmed(e.task.credentialID) && Padded(t.credentialID, e.task.credentialID)
            && e.task.insecureSkipVerify == t.insecureSkipVerify
  {
    assert CleanTask(t) == t;
    TrimSpaceMeans(t.credentialID, TrimSpace(t.credentialID));
    hide TrimSpace, Padded, Trimmed;
  }

  lemma {:induction false} NewTaskTidy(tasks: seq<Task>, transitionID: string, ids: seq<Uuid>, now: Time, i: nat)
    requires i < |tasks| == |ids|
    ensures NewTasks(tasks, transitionID, ids, now)[i] == NewTask(tasks[i], transitionID, ids[i], now)
    ensures Tidy(NewTasks(tasks, transitionID, ids, now)[i])
  {
    hide NewTask, Tidy;
    var n := |tasks| - 1;
    if i < n {
      NewTaskTidy(tasks[..n], transitionID, ids[..n], now, i);
    } else {
      TidyTask(tasks[i], transitionID, ids[i], now);
    }
  }

  lemma TidyTask(t: Task, transitionID: string, id: Uuid, now: Time)
    ensures Tidy(NewTask(t, transitionID, id, now))
  {
    hide TrimSpace, Trimmed;
  }

  /** Creation leaves other tasks alone. */
  lemma {:induction false} InsertKeeps(tasks: map<string, Task>, transitions: map<string, Transition>, news: seq<Task>,
                                       id: string)
    requires InsertTasks(tasks, transitions, news).Some? && id in tasks
    ensures id in InsertTasks(tasks, transitions, news).value
    ensures InsertTasks(tasks, transitions, news).value[id] == tasks[id]
  {
    if news != [] {
      InsertKeeps(tasks, transitions, news[..|news| - 1], id);
    }
  }

  /** The outbox part of one creation, for one task id. An id that was there before gets no event; a new one gets a
      result equal to its row if the row is terminal. */
  lemma {:induction false} CreationReplay(outbox: seq<Event>, news: seq<Task>, tasks: map<string, Task>,
                                          transitions: map<string, Transition>, id: string)
    requires CreationEvents(news).Ok? && InsertTasks(tasks, transitions, news).Some?
    requires AllTidy(news)
    ensures var rows := InsertTasks(tasks, transitions, news).value;
            var before := ReplayedResults(outbox);
            var after := ReplayedResults(outbox + CreationEvents(news).value);
            && Replayed(outbox + CreationEvents(news).value) == Replayed(outbox)
            && (id !in rows || id in tasks ==>
                  (id in after <==> id in before) && (id in after ==> after[id] == before[id]))
            && (id in rows && id !in tasks ==>
                  rows[id].id == id && (Terminal(rows[id].state) ==> id in after && Columns(after[id]) == rows[id]))
  {
    hide TaskResultEvent, Tidy, Replayed, ReplayedResults;
    if news == [] {
      assert outbox + [] == outbox;
    } else {
      var n := |news| - 1;
      var t := news[n];
      CreationReplay(outbox, news[..n], tasks, transitions, id);
      var events := CreationEvents(news[..n]).value;
      if id in tasks {
        InsertKeeps(tasks, transitions, news[..n], id);
      }
      if t.id in tasks {
        InsertKeeps(tasks, transitions, news[..n], t.id);
      }
      if Terminal(t.state) {
        var e := TaskResultEvent(t).value;
        EventColumns(t);
        assert outbox + (events + [e]) == (outbox + events) + [e];
        ReplayOne(outbox + events, e);
      }
    }
  }

  lemma CreateKeepsTransitions(db: Database, transition: Transition, tasks: seq<Task>, id: Uuid, ids: seq<Uuid>,
                               now: Time, fault: Fault)
    requires |ids| == |tasks| && Keyed(db) && TransitionsLogged(db)
    ensures var (after, r) := Create(db, transition, tasks, id, ids, now, fault);
            TransitionsLogged(after) && forall k :: k in after.transitions ==> after.transitions[k].id == k
  {
    hide TrimSpace, Trimmed;
    var (after, r) := Create(db, transition, tasks, id, ids, now, fault);
    if r.Ok? {
      var (row, news) := r.value;
      assert news == NewTasks(tasks, row.id, ids, now);
      NewTasksTidy(tasks, row.id, ids, now);
      var event := LifecycleEvent(row).value;
      RowClean(transition, id, now);
      ReplayOne(db.outbox, event);
      CreationReplay(db.outbox + [event], news, db.tasks, after.transitions, row.id);
    }
  }

  lemma NewTasksTidy(tasks: seq<Task>, transitionID: string, ids: seq<Uuid>, now: Time)
    requires |ids| == |tasks|
    ensures AllTidy(NewTasks(tasks, transitionID, ids, now))
  {
    var r := NewTasks(tasks, transitionID, ids, now);
    forall i | 0 <= i < |r| ensures Tidy(r[i]) {
      NewTaskTidy(tasks, transitionID, ids, now, i);
    }
  }

  lemma RowClean(t: Transition, id: Uuid, now: Time)
    ensures CleanTransition(NewTransitionRow(t, id, now)) == NewTransitionRow(t, id, now)
    ensures NewTransitionRow(t, id, now).id != ""
  {
  }

  lemma CreateKeepsResult(db: Database, transition: Transition, tasks: seq<Task>, id: Uuid, ids: seq<Uuid>, now: Time,
                          fault: Fault, k: string)
    requires |ids| == |tasks| && Logged(db)
    ensures var (after, r) := Create(db, transition, tasks, id, ids, now, fault);
            && (k in after.tasks ==> after.tasks[k].id == k && ResultLogged(after, k))
            && (k in ReplayedResults(after.outbox) ==> k in after.tasks)
  {
    hide TrimSpace, Trimmed, NewTasks, NewTransitionRow, InsertTasks, CreationEvents, Tidy, OneTaskPerNode,
         TransitionsLogged, Replayed, CleanTransition, Columns, ResultLogged;
    var (after, r) := Create(db, transition, tasks, id, ids, now, fault);
    assert k in db.tasks ==> ResultLogged(db, k);
    if r.Ok? {
      var (row, news) := r.value;
      assert news == NewTasks(tasks, row.id, ids, now);
      NewTasksTidy(tasks, row.id, ids, now);
      RowClean(transition, id, now);
      var event := LifecycleEvent(row).value;
      ReplayOne(db.outbox, event);
      CreationReplay(db.outbox + [event], news, db.tasks, after.transitions, k);
      if k in db.tasks {
        InsertKeeps(db.tasks, after.transitions, news, k);
        KeptResult(db, after, k);
      } else if k in after.tasks {
        InsertedColumns(db.tasks, after.transitions, news, k);
        NewResult(after, k);
      }
    }
  }

  lemma KeptResult(db: Database, after: Database, k: string)
    requires ResultLogged(db, k) && k in db.tasks && k in after.tasks && after.tasks[k] == db.tasks[k]
    requires var r, r' := ReplayedResults(db.outbox), ReplayedResults(after.outbox);
             (k in r' <==> k in r) && (k in r ==> r'[k] == r[k])
    ensures ResultLogged(after, k)
  {
  }

  lemma NewResult(db: Database, k: string)
    requires k in db.tasks && Terminal(db.tasks[k].state) ==>
               k in ReplayedResults(db.outbox) && Columns(ReplayedResults(db.outbox)[k]) == db.tasks[k]
    ensures ResultLogged(db, k)
  {
  }

  lemma {:induction false} InsertedColumns(tasks: map<string, Task>, transitions: map<string, Transition>,
                                           news: seq<Task>, id: string)
    requires InsertTasks(tasks, transitions, news).Some? && id in InsertTasks(tasks, transitions, news).value
    requires id !in tasks
    ensures var row := InsertTasks(tasks, transitions, news).value[id];
            row == Columns(row) && exists i :: 0 <= i < |news| && news[i].id == id && row == Columns(news[i])
  {
    var n := |news| - 1;
    if news[n].id != id {
      InsertedColumns(tasks, transitions, news[..n], id);
    }
  }

  lemma UpdateKeepsLog(db: Database, t: Transition, now: Time, fault: Fault)
    requires Logged(db)
    ensures Logged(Update(db, t, now, fault).0)
  {
    hide TrimSpace, Trimmed;
    var (after, _) := Update(db, t, now, fault);
    if after.outbox != db.outbox {
      var event := after.outbox[|db.outbox|];
      ReplayOne(db.outbox, event);
      forall k | k in after.tasks ensures ResultLogged(after, k) { assert ResultLogged(db, k); }
    }
  }

  lemma RowKeepsUnique(tasks: map<string, Task>, id: string, row: Task)
    requires OneTaskPerNode(tasks)
    requires forall k <- tasks :: k != id ==>
              !(tasks[k].transitionID == row.transitionID && tasks[k].nodeID == row.nodeID)
    ensures OneTaskPerNode(tasks[id := row])
  {
  }

  lemma UpdateTaskKeepsUnique(db: Database, t: Task, now: Time, fault: Fault)
    requires OneTaskPerNode(db.tasks)
    ensures OneTaskPerNode(UpdateTask(db, t, now, fault).0.tasks)
  {
    hide TrimSpace, TaskResultEvent, OneTaskPerNode, CleanTask;
    var c := CleanTask(t);
    var u := if c.updatedAt == 0 then c.(updatedAt := now) else c;
    if u.id in db.tasks && Updatable(db, u) {
      RowKeepsUnique(db.tasks, u.id, UpdatedTaskRow(db.tasks[u.id], u));
    }
  }

  lemma UpdateTaskKeepsLog(db: Database, t: Task, now: Time, fault: Fault)
    requires Logged(db)
    ensures Logged(UpdateTask(db, t, now, fault).0)
  {
    hide TrimSpace, Trimmed, OneTaskPerNode;
    var (after, r) := UpdateTask(db, t, now, fault);
    UpdateTaskKeepsUnique(db, t, now, fault);
    if r.Ok? {
      var u := r.value;
      assert Tidy(u);
      if Terminal(u.state) {
        var e := TaskResultEvent(u).value;
        EventColumns(u);
        ReplayOne(db.outbox, e);
      }
      forall k | k in after.tasks ensures ResultLogged(after, k) { assert ResultLogged(db, k); }
    }
  }

  lemma {:induction false} InsertKeepsUnique(tasks: map<string, Task>, transitions: map<string, Transition>,
                                             news: seq<Task>)
    requires OneTaskPerNode(tasks) && InsertTasks(tasks, transitions, news).Some?
    ensures OneTaskPerNode(InsertTasks(tasks, transitions, news).value)
  {
    if news != [] {
      InsertKeepsUnique(tasks, transitions, news[..|news| - 1]);
    }
  }

  lemma CreateKeepsUnique(db: Database, t: Transition, ts: seq<Task>, id: Uuid, ids: seq<Uuid>, now: Time, fault: Fault)
    requires |ids| == |ts| && OneTaskPerNode(db.tasks)
    ensures OneTaskPerNode(Create(db, t, ts, id, ids, now, fault).0.tasks)
  {
    hide NewTransitionRow, NewTasks, LifecycleEvent, CreationEvents, InsertTasks, OneTaskPerNode;
    var row := NewTransitionRow(t, id, now);
    var news := NewTasks(ts, row.id, ids, now);
    if InsertTasks(db.tasks, db.transitions[row.id := row], news).Some? {
      InsertKeepsUnique(db.tasks, db.transitions[row.id := row], news);
    }
  }

  lemma CreateKeepsLog(db: Database, t: Transition, ts: seq<Task>, id: Uuid, ids: seq<Uuid>, now: Time, fault: Fault)
    requires |ids| == |ts| && Logged(db)
    ensures Logged(Create(db, t, ts, id, ids, now, fault).0)
  {
    hide Create, OneTaskPerNode, TransitionsLogged, ResultLogged, ReplayedResults, Columns;
    CreateKeepsUnique(db, t, ts, id, ids, now, fault);
    CreateKeepsTransitions(db, t, ts, id, ids, now, fault);
    var after := Create(db, t, ts, id, ids, now, fault).0;
    forall k
      ensures k in after.tasks ==> after.tasks[k].id == k && ResultLogged(after, k)
      ensures k in ReplayedResults(after.outbox) ==> k in after.tasks
    {
      CreateKeepsResult(db, t, ts, id, ids, now, fault, k);
    }
  }

  lemma ApplyKeepsLog(db: Database, op: Op)
    requires Logged(db)
    ensures Logged(ApplyOp(db, op))
  {
    hide Logged, Create, Update, UpdateTask;
    match op
    case CreateOp(t, ts, id, ids, now, fault) =>
      if |ids| == |ts| {
        CreateKeepsLog(db, t, ts, id, ids, now, fault);
      }
    case UpdateOp(t, now, fault) => UpdateKeepsLog(db, t, now, fault);
    case UpdateTaskOp(t, now, fault) => UpdateTaskKeepsLog(db, t, now, fault);
  }

  /** The tables can be rebuilt from the outbox after any sequence of store calls. */
  lemma {:induction false} ReplayRebuildsTables(ops: seq<Op>)
    ensures Logged(AfterOps(ops))
  {
    if ops != [] {
      ReplayRebuildsTables(ops[..|ops| - 1]);
      ApplyKeepsLog(AfterOps(ops[..|ops| - 1]), ops[|ops| - 1]);
    }
  }

  /** `created_at` is the column replay does not protect: an update publishes the value it was given and leaves the
      stored one. Replay stays exact for the transition if and only if the two are the same. */
  lemma CreatedAtReplayed(db: Database, t: Transition, now: Time, fault: Fault)
    requires Logged(db) && Replayed(db.outbox) == db.transitions
    requires !fault.BeforeCommit? && TrimSpace(t.id) in db.transitions && TrimSpace(t.id) != ""
    ensures var (after, _) := Update(db, t, now, fault);
            Replayed(after.outbox) == after.transitions <==> t.createdAt == db.transitions[TrimSpace(t.id)].createdAt
  {
    hide TrimSpace, Trimmed, Logged;
    var (after, _) := Update(db, t, now, fault);
    var id := TrimSpace(t.id);
    var event := after.outbox[|db.outbox|];
    ReplayOne(db.outbox, event);
    assert Replayed(after.outbox)[id].createdAt == t.createdAt;
    assert after.transitions[id].createdAt == db.transitions[id].createdAt;
    if t.createdAt == db.transitions[id].createdAt {
      assert Replayed(after.outbox)[id] == after.transitions[id];
      assert Replayed(after.outbox) == after.transitions;
    }
  }

  /** The same for a task: after a committed terminal update its last result is its row, on every stored column, if and
      only if the update carried the stored `created_at`. */
  lemma TaskCreatedAtReplayed(db: Database, t: Task, now: Time, fault: Fault)
    requires UpdateTask(db, t, now, fault).1.Ok? && Terminal(t.state)
    ensures var (after, _), id := UpdateTask(db, t, now, fault), TrimSpace(t.id);
            && id in db.tasks && id in after.tasks && id in ReplayedResults(after.outbox)
            && (Columns(ReplayedResults(after.outbox)[id]) == after.tasks[id] <==>
                  t.createdAt == db.tasks[id].createdAt)
  {
    hide TrimSpace, Trimmed, Updatable, Terminal;
    var (after, r) := UpdateTask(db, t, now, fault);
    var u := r.value;
    assert Tidy(u);
    var e := TaskResultEvent(u).value;
    EventColumns(u);
    ReplayOne(db.outbox, e);
    assert Columns(ReplayedResults(after.outbox)[u.id]).createdAt == t.createdAt;
    assert after.tasks[u.id].createdAt == db.tasks[u.id].createdAt;
  }

  /** A well-formed update of a task of its own transition and node is refused by nothing but the environment. */
  lemma OnlyFaultsRefuse(db: Database, t: Task, now: Time, fault: Fault)
    requires OneTaskPerNode(db.tasks) && Trimmed(t.id) && t.id in db.tasks && t.transitionID in db.transitions
    requires Trimmed(t.transitionID) && t.transitionID == db.tasks[t.id].transitionID
    requires Trimmed(t.nodeID) && t.nodeID == db.tasks[t.id].nodeID
    requires t.id != "" && t.transitionID != "" && t.nodeID != ""
    ensures UpdateTask(db, t, now, fault).1.Ok? <==> fault.NoFault?
  {
    hide TrimSpace;
    assert TrimSpace(t.id) == t.id && TrimSpace(t.transitionID) == t.transitionID && TrimSpace(t.nodeID) == t.nodeID;
  }

  /** The store refuses or fails without leaving anything behind, except that `UpdateTransition` reports an error when
      only its read-back failed: then the row and its event are committed. */
  lemma FailureLeavesNothing(db: Database, op: Op)
    ensures match op
            case CreateOp(t, ts, id, ids, now, fault) =>
              |ids| == |ts| && Create(db, t, ts, id, ids, now, fault).1.Err? ==> ApplyOp(db, op) == db
            case UpdateOp(t, now, fault) =>
              Update(db, t, now, fault).1.Err? ==>
                (ApplyOp(db, op) == db <==>
                   !(fault.AfterCommit? && TrimSpace(t.id) != "" && TrimSpace(t.id) in db.transitions))
            case UpdateTaskOp(t, now, fault) => UpdateTask(db, t, now, fault).1.Err? ==> ApplyOp(db, op) == db
  {
    hide TrimSpace, Trimmed;
    if op.UpdateOp? {
      var (after, r) := Update(db, op.transition, op.now, op.fault);
      if op.fault.AfterCommit? && TrimSpace(op.transition.id) != "" && TrimSpace(op.transition.id) in db.transitions {
        assert |after.outbox| == |db.outbox| + 1;
      }
    }
  }
}
