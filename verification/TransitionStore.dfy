/** The transition tables and their transactional outbox (store/postgres_transition.go,
    store/events_transition.go). Every operation is one transaction: the specification functions
    give the database after it and what the caller gets back, and the class does the work
    row by row. */
module TransitionStore {
  import opened Text
  import opened Records

  /** `gen_random_uuid()::text`: never blank and without spaces around it. A generated identifier
      that already exists is a primary-key violation, so freshness is not assumed. */
  type Uuid = s: string | s != "" && Trimmed(s) witness "u"

  datatype StoreError = IDRequired | NotFound | Constraint | Backend

  datatype Result<+T> = Ok(value: T) | Err(error: StoreError) {
    predicate IsFailure() { Err? }
    function PropagateFailure<U>(): Result<U> requires Err? { Err(error) }
    function Extract(): T requires Ok? { value }
  }

  /** What the environment does to one transaction. `AfterCommit` is the read-back of
      `UpdateTransition` failing once the update is durable. */
  datatype Fault = NoFault | BeforeCommit | AfterCommit

  datatype Event =
    | Lifecycle(transitionID: string, transition: Transition)
    | TaskResult(transitionID: string, nodeID: string, taskID: string, task: Task)

  datatype Database = Database(
    transitions: map<string, Transition>,
    tasks: map<string, Task>,
    outbox: seq<Event>)

  const EMPTY := Database(map[], map[], [])

  // ---------------------------------------------------------------- events

  function CleanTransition(t: Transition): Transition {
    t.(id := TrimSpace(t.id), requestID := TrimSpace(t.requestID), operation := TrimSpace(t.operation),
       requestedBy := TrimSpace(t.requestedBy))
  }

  function CleanTask(t: Task): Task {
    t.(id := TrimSpace(t.id), transitionID := TrimSpace(t.transitionID), nodeID := TrimSpace(t.nodeID),
       bmcID := TrimSpace(t.bmcID), bmcEndpoint := TrimSpace(t.bmcEndpoint), operation := TrimSpace(t.operation),
       finalPowerState := TrimSpace(t.finalPowerState), errorDetail := TrimSpace(t.errorDetail))
  }

  /** `newTransitionLifecycleEvent`. */
  function LifecycleEvent(t: Transition): Result<Event> {
    var c := CleanTransition(t);
    if c.id == "" then Err(IDRequired) else Ok(Lifecycle(c.id, c))
  }

  /** `newTransitionTaskResultEvent`. */
  function TaskResultEvent(t: Task): Result<Event> {
    var c := CleanTask(t);
    if c.id == "" || c.transitionID == "" || c.nodeID == "" then Err(IDRequired)
    else Ok(TaskResult(c.transitionID, c.nodeID, c.id, c.(credentialID := TrimSpace(c.credentialID))))
  }

  // ---------------------------------------------------------------- rows

  /** The table has no column for the credential and for the TLS flag. */
  function Columns(t: Task): Task {
    t.(credentialID := "", insecureSkipVerify := false)
  }

  function Stamped(t: Transition, now: Time): Transition {
    var created := if t.createdAt == 0 then now else t.createdAt;
    t.(queuedAt := if t.queuedAt == 0 then now else t.queuedAt,
       createdAt := created,
       updatedAt := if t.updatedAt == 0 then created else t.updatedAt)
  }

  function StampedTask(t: Task, now: Time): Task {
    var created := if t.createdAt == 0 then now else t.createdAt;
    t.(queuedAt := if t.queuedAt == 0 then now else t.queuedAt,
       createdAt := created,
       updatedAt := if t.updatedAt == 0 then created else t.updatedAt)
  }

  /** The row `insertTransitionTx` inserts and returns. */
  function NewTransitionRow(t: Transition, id: Uuid, now: Time): Transition {
    var c := Stamped(CleanTransition(t), now);
    if c.id == "" then c.(id := id) else c
  }

  /** The task `insertTransitionTaskTx` returns: the inserted row and the two fields that are not stored. */
  function NewTask(t: Task, transitionID: string, id: Uuid, now: Time): Task {
    var c := StampedTask(CleanTask(t.(transitionID := transitionID)), now);
    if c.id == "" then c.(id := id) else c
  }

  /** Primary key, foreign key and UNIQUE (transition_id, node_id). */
  predicate Insertable(tasks: map<string, Task>, transitions: map<string, Transition>, t: Task) {
    && t.id !in tasks
    && t.transitionID in transitions
    && forall k <- tasks :: !(tasks[k].transitionID == t.transitionID && tasks[k].nodeID == t.nodeID)
  }

  /** The tasks as inserted, in order; `None` as soon as one violates a constraint. */
  function InsertTasks(tasks: map<string, Task>, transitions: map<string, Transition>, news: seq<Task>):
    Option<map<string, Task>>
  {
    if news == [] then Some(tasks)
    else
      match InsertTasks(tasks, transitions, news[..|news| - 1])
      case None => None
      case Some(done) =>
        var t := news[|news| - 1];
        if Insertable(done, transitions, t) then Some(done[t.id := Columns(t)]) else None
  }

  /** The events of the terminal ones among freshly inserted tasks, in order. */
  function CreationEvents(news: seq<Task>): Result<seq<Event>> {
    if news == [] then Ok([])
    else
      match CreationEvents(news[..|news| - 1])
      case Err(e) => Err(e)
      case Ok(done) =>
        var t := news[|news| - 1];
        if !Terminal(t.state) then Ok(done)
        else
          match TaskResultEvent(t)
          case Err(e) => Err(e)
          case Ok(event) => Ok(done + [event])
  }

  function NewTasks(tasks: seq<Task>, transitionID: string, ids: seq<Uuid>, now: Time): (r: seq<Task>)
    requires |ids| == |tasks|
    ensures |r| == |tasks|
  {
    if tasks == [] then []
    else
      var n := |tasks| - 1;
      NewTasks(tasks[..n], transitionID, ids[..n], now) + [NewTask(tasks[n], transitionID, ids[n], now)]
  }

  // ---------------------------------------------------------------- transactions

  /** `CreateTransition`. */
  function Create(db: Database, transition: Transition, tasks: seq<Task>, id: Uuid, ids: seq<Uuid>, now: Time,
                  fault: Fault):
    (Database, Result<(Transition, seq<Task>)>)
    requires |ids| == |tasks|
  {
    var row := NewTransitionRow(transition, id, now);
    if row.id in db.transitions then (db, Err(Constraint))
    else
      var transitions := db.transitions[row.id := row];
      var news := NewTasks(tasks, row.id, ids, now);
      match InsertTasks(db.tasks, transitions, news)
      case None => (db, Err(Constraint))
      case Some(rows) =>
        match (LifecycleEvent(row), CreationEvents(news))
        case (Ok(event), Ok(events)) =>
          if fault.BeforeCommit? then (db, Err(Backend))
          else (Database(transitions, rows, db.outbox + [event] + events), Ok((row, news)))
        case (Err(e), _) => (db, Err(e))
        case (_, Err(e)) => (db, Err(e))
  }

  /** The row an update leaves: `created_at` is not among the columns it sets. */
  function UpdatedRow(stored: Transition, t: Transition): Transition {
    t.(createdAt := stored.createdAt)
  }

  /** `UpdateTransition`. */
  function Update(db: Database, t: Transition, now: Time, fault: Fault): (Database, Result<Transition>) {
    var c := CleanTransition(t);
    var u := if c.updatedAt == 0 then c.(updatedAt := now) else c;
    if u.id == "" then (db, Err(IDRequired))
    else if fault.BeforeCommit? then (db, Err(Backend))
    else if u.id !in db.transitions then (db, Err(NotFound))
    else
      match LifecycleEvent(u)
      case Err(e) => (db, Err(e))
      case Ok(event) =>
        var row := UpdatedRow(db.transitions[u.id], u);
        (db.(transitions := db.transitions[u.id := row], outbox := db.outbox + [event]),
         if fault.AfterCommit? then Err(Backend) else Ok(row))
  }

  function UpdatedTaskRow(stored: Task, t: Task): Task {
    Columns(t).(createdAt := stored.createdAt)
  }

  /** UNIQUE (transition_id, node_id) and the foreign key, for an update of row `t.id`. */
  predicate Updatable(db: Database, t: Task) {
    && t.transitionID in db.transitions
    && forall k <- db.tasks :: k != t.id ==>
         !(db.tasks[k].transitionID == t.transitionID && db.tasks[k].nodeID == t.nodeID)
  }

  /** `UpdateTransitionTask`. It returns the task it was given, trimmed, not a row it read back. */
  function UpdateTask(db: Database, t: Task, now: Time, fault: Fault): (Database, Result<Task>) {
    var c := CleanTask(t);
    var u := if c.updatedAt == 0 then c.(updatedAt := now) else c;
    if u.id == "" then (db, Err(IDRequired))
    else if !fault.NoFault? then (db, Err(Backend))
    else if u.id !in db.tasks then (db, Err(NotFound))
    else if !Updatable(db, u) then (db, Err(Constraint))
    else
      var rows := db.tasks[u.id := UpdatedTaskRow(db.tasks[u.id], u)];
      if !Terminal(u.state) then (db.(tasks := rows), Ok(u))
      else
        match TaskResultEvent(u)
        case Err(e) => (db, Err(e))
        case Ok(event) => (db.(tasks := rows, outbox := db.outbox + [event]), Ok(u))
  }

  // ---------------------------------------------------------------- what the rows mean

  /** `b` is `a` without the space around it. */
  ghost predicate Tidies(a: string, b: string) {
    Trimmed(b) && Padded(a, b)
  }

  lemma TidiesMeans(a: string)
    ensures Tidies(a, TrimSpace(a)) && (Blank(a) <==> TrimSpace(a) == "")
  {
    hide TrimSpace, Trimmed, Padded;
    TrimSpaceMeans(a, TrimSpace(a));
    BlankMeans(a);
  }

  function Default(given: Time, now: Time): Time {
    if given == 0 then now else given
  }

  /** `r` has the columns of `t`, the names without the space around them. */
  ghost predicate ColumnsOf(t: Transition, r: Transition) {
    && Tidies(t.requestID, r.requestID) && Tidies(t.operation, r.operation) && Tidies(t.requestedBy, r.requestedBy)
    && r.state == t.state && r.dryRun == t.dryRun && r.targetCount == t.targetCount
    && r.successCount == t.successCount && r.failureCount == t.failureCount
    && r.startedAt == t.startedAt && r.completedAt == t.completedAt
  }

  ghost predicate TaskColumnsOf(t: Task, r: Task) {
    && Tidies(t.nodeID, r.nodeID) && Tidies(t.bmcID, r.bmcID) && Tidies(t.bmcEndpoint, r.bmcEndpoint)
    && Tidies(t.operation, r.operation) && Tidies(t.finalPowerState, r.finalPowerState)
    && Tidies(t.errorDetail, r.errorDetail)
    && r.state == t.state && r.dryRun == t.dryRun && r.attemptCount == t.attemptCount
    && r.startedAt == t.startedAt && r.completedAt == t.completedAt
  }

  /** What an insert stores: the columns given, a generated identifier if none is given, and the time of the insert for
      the times that are not given. */
  lemma NewRowMeans(t: Transition, id: Uuid, now: Time)
    ensures var r := NewTransitionRow(t, id, now);
            && ColumnsOf(t, r) && (if Blank(t.id) then r.id == id else IsName(t.id, r.id))
            && r.queuedAt == Default(t.queuedAt, now) && r.createdAt == Default(t.createdAt, now)
            && r.updatedAt == Default(t.updatedAt, r.createdAt)
  {
    hide TrimSpace, Tidies, Blank, IsName;
    TidiesMeans(t.requestID);
    TidiesMeans(t.operation);
    TidiesMeans(t.requestedBy);
    TidiesMeans(t.id);
    IsNameMeans(t.id, TrimSpace(t.id));
  }

  lemma CleanTaskMeans(t: Task)
    ensures TaskColumnsOf(t, CleanTask(t)) && Tidies(t.transitionID, CleanTask(t).transitionID)
    ensures var c := CleanTask(t);
            && c.id == TrimSpace(t.id) && c.queuedAt == t.queuedAt && c.createdAt == t.createdAt
            && c.updatedAt == t.updatedAt && c.credentialID == t.credentialID
            && c.insecureSkipVerify == t.insecureSkipVerify
  {
    hide TrimSpace, Tidies, Blank;
    TidiesMeans(t.nodeID);
    TidiesMeans(t.bmcID);
    TidiesMeans(t.bmcEndpoint);
    TidiesMeans(t.operation);
    TidiesMeans(t.finalPowerState);
    TidiesMeans(t.errorDetail);
    TidiesMeans(t.transitionID);
  }

  lemma NewTaskMeans(t: Task, transitionID: string, id: Uuid, now: Time)
    ensures var r := NewTask(t, transitionID, id, now);
            && TaskColumnsOf(t, r) && (if Blank(t.id) then r.id == id else IsName(t.id, r.id))
            && Tidies(transitionID, r.transitionID)
            && r.credentialID == t.credentialID && r.insecureSkipVerify == t.insecureSkipVerify
            && r.queuedAt == Default(t.queuedAt, now) && r.createdAt == Default(t.createdAt, now)
            && r.updatedAt == Default(t.updatedAt, r.createdAt)
  {
    hide TrimSpace, Tidies, Blank, IsName;
    CleanTaskMeans(t.(transitionID := transitionID));
    TidiesMeans(t.id);
    IsNameMeans(t.id, TrimSpace(t.id));
  }

  /** What an update of a transition answers and leaves: refused without an identifier, without a row, or by a fault
      before the commit; otherwise the row has the columns given but keeps its creation time, the event says the same
      with the creation time given, and only the read-back may still fail. */
  lemma UpdateRowMeans(db: Database, t: Transition, now: Time, fault: Fault)
    ensures var (after, r) := Update(db, t, now, fault);
            var id := TrimSpace(t.id);
            if Blank(t.id) then after == db && r == Err(IDRequired)
            else if fault.BeforeCommit? then after == db && r == Err(Backend)
            else if id !in db.transitions then after == db && r == Err(NotFound)
            else
              && id in after.transitions && after.tasks == db.tasks
              && var row := after.transitions[id];
              && after.transitions == db.transitions[id := row]
              && ColumnsOf(t, row) && row.id == id && row.queuedAt == t.queuedAt
              && row.createdAt == db.transitions[id].createdAt && row.updatedAt == Default(t.updatedAt, now)
              && after.outbox == db.outbox + [Lifecycle(id, row.(createdAt := t.createdAt))]
              && (if fault.AfterCommit? then r == Err(Backend) else r == Result.Ok(row))
  {
    hide TrimSpace, Tidies, Blank;
    TidiesMeans(t.id);
    TidiesMeans(t.requestID);
    TidiesMeans(t.operation);
    TidiesMeans(t.requestedBy);
    assert TrimSpace(TrimSpace(t.id)) == TrimSpace(t.id);
    assert TrimSpace(TrimSpace(t.requestID)) == TrimSpace(t.requestID);
    assert TrimSpace(TrimSpace(t.operation)) == TrimSpace(t.operation);
    assert TrimSpace(TrimSpace(t.requestedBy)) == TrimSpace(t.requestedBy);
  }

  /** What an update hands back, and what its row holds. */
  ghost predicate TaskUpdated(t: Task, now: Time, stored: Task, u: Task, row: Task) {
    && TaskColumnsOf(t, u) && Tidies(t.transitionID, u.transitionID) && u.id == TrimSpace(t.id)
    && u.queuedAt == t.queuedAt && u.createdAt == t.createdAt && u.updatedAt == Default(t.updatedAt, now)
    && u.credentialID == t.credentialID && u.insecureSkipVerify == t.insecureSkipVerify
    && row == u.(createdAt := stored.createdAt, credentialID := "", insecureSkipVerify := false)
  }

  lemma TaskUpdatedMeans(t: Task, now: Time, stored: Task)
    ensures var c := CleanTask(t);
            var u := if c.updatedAt == 0 then c.(updatedAt := now) else c;
            TaskUpdated(t, now, stored, u, UpdatedTaskRow(stored, u))
  {
    hide TrimSpace, Tidies, CleanTask;
    CleanTaskMeans(t);
  }

  /** The row that an update of a task leaves: the columns given, its creation time kept, and neither credential nor TLS
      flag, which the caller gets back. */
  lemma UpdateTaskRowMeans(db: Database, t: Task, now: Time, fault: Fault)
    ensures var (after, r) := UpdateTask(db, t, now, fault);
            var id := TrimSpace(t.id);
            if r.Ok? then
              && id in db.tasks && id in after.tasks && after.transitions == db.transitions
              && after.tasks == db.tasks[id := after.tasks[id]]
              && TaskUpdated(t, now, db.tasks[id], r.value, after.tasks[id])
            else after == db
  {
    hide TrimSpace, TaskUpdated, Updatable, TaskResultEvent, Terminal, CleanTask, UpdatedTaskRow;
    CleanTaskMeans(t);
    if TrimSpace(t.id) in db.tasks {
      TaskUpdatedMeans(t, now, db.tasks[TrimSpace(t.id)]);
    }
  }

  // ---------------------------------------------------------------- sequences of calls

  datatype Op =
    | CreateOp(transition: Transition, newTasks: seq<Task>, id: Uuid, ids: seq<Uuid>, now: Time, fault: Fault)
    | UpdateOp(transition: Transition, now: Time, fault: Fault)
    | UpdateTaskOp(task: Task, now: Time, fault: Fault)

  function ApplyOp(db: Database, op: Op): Database {
    match op
    case CreateOp(t, ts, id, ids, now, fault) => if |ids| == |ts| then Create(db, t, ts, id, ids, now, fault).0 else db
    case UpdateOp(t, now, fault) => Update(db, t, now, fault).0
    case UpdateTaskOp(t, now, fault) => UpdateTask(db, t, now, fault).0
  }

  function AfterOps(ops: seq<Op>): Database {
    if ops == [] then EMPTY else ApplyOp(AfterOps(ops[..|ops| - 1]), ops[|ops| - 1])
  }

  // ---------------------------------------------------------------- the store

  class Store {
    var transitions: map<string, Transition>
    var tasks: map<string, Task>
    var outbox: seq<Event>

    function Contents(): Database
      reads this
    {
      Database(transitions, tasks, outbox)
    }

    constructor ()
      ensures Contents() == EMPTY
    {
      transitions, tasks, outbox := map[], map[], [];
    }

    method CreateTransition(transition: Transition, newTasks: seq<Task>, id: Uuid, ids: seq<Uuid>, now: Time,
                            fault: Fault)
      returns (r: Result<(Transition, seq<Task>)>)
      requires |ids| == |newTasks|
      modifies this
      ensures (Contents(), r) == Create(old(Contents()), transition, newTasks, id, ids, now, fault)
    {
      var row := NewTransitionRow(transition, id, now);
      if row.id in transitions {
        return Err(Constraint);
      }
      var txTransitions := transitions[row.id := row];
      var ok, txTasks, created := InsertTransitionTasks(txTransitions, newTasks, row.id, ids, now);
      if !ok {
        return Err(Constraint);
      }
      var lifecycle := LifecycleEvent(row);
      var results :- CollectEvents(created);
      if fault.BeforeCommit? {
        return Err(Backend);
      }
      transitions, tasks, outbox := txTransitions, txTasks, outbox + [lifecycle.value] + results;
      return Ok((row, created));
    }

    /** The task inserts of one transaction. */
    method InsertTransitionTasks(txTransitions: map<string, Transition>, newTasks: seq<Task>, transitionID: string,
                                 ids: seq<Uuid>, now: Time)
      returns (ok: bool, txTasks: map<string, Task>, created: seq<Task>)
      requires |ids| == |newTasks|
      ensures InsertTasks(tasks, txTransitions, NewTasks(newTasks, transitionID, ids, now)) ==
              if ok then Some(txTasks) else None
      ensures ok ==> created == NewTasks(newTasks, transitionID, ids, now)
    {
      txTasks, created, ok := tasks, [], true;
      for i := 0 to |newTasks|
        invariant created == NewTasks(newTasks[..i], transitionID, ids[..i], now)
        invariant InsertTasks(tasks, txTransitions, created) == Some(txTasks)
      {
        var t := NewTask(newTasks[i], transitionID, ids[i], now);
        NextInsertion(tasks, txTransitions, newTasks, transitionID, ids, now, i);
        created := created + [t];
        if !Insertable(txTasks, txTransitions, t) {
          InsertionStops(tasks, txTransitions, newTasks, transitionID, ids, now, i + 1);
          return false, txTasks, created;
        }
        txTasks := txTasks[t.id := Columns(t)];
      }
      assert newTasks[..|newTasks|] == newTasks && ids[..|ids|] == ids;
    }

    /** The result events of the created tasks that are already terminal. */
    method CollectEvents(created: seq<Task>) returns (r: Result<seq<Event>>)
      ensures r == CreationEvents(created)
    {
      var events := [];
      for i := 0 to |created|
        invariant CreationEvents(created[..i]) == Ok(events)
      {
        assert created[..i + 1][..i] == created[..i];
        if Terminal(created[i].state) {
          var event := TaskResultEvent(created[i]);
          if event.Err? {
            EventsStop(created, i + 1);
            return Err(event.error);
          }
          events := events + [event.value];
        }
      }
      assert created[..|created|] == created;
      return Ok(events);
    }

    method UpdateTransition(t: Transition, now: Time, fault: Fault) returns (r: Result<Transition>)
      modifies this
      ensures (Contents(), r) == Update(old(Contents()), t, now, fault)
    {
      var u := CleanTransition(t);
      if u.id == "" {
        return Err(IDRequired);
      }
      if u.updatedAt == 0 {
        u := u.(updatedAt := now);
      }
      if fault.BeforeCommit? {
        return Err(Backend);
      }
      if u.id !in transitions {
        return Err(NotFound);
      }
      var event := LifecycleEvent(u).value;
      transitions := transitions[u.id := UpdatedRow(transitions[u.id], u)];
      outbox := outbox + [event];
      if fault.AfterCommit? {
        return Err(Backend);
      }
      return Ok(transitions[u.id]);
    }

    method UpdateTransitionTask(t: Task, now: Time, fault: Fault) returns (r: Result<Task>)
      modifies this
      ensures (Contents(), r) == UpdateTask(old(Contents()), t, now, fault)
    {
      var u := CleanTask(t);
      if u.id == "" {
        return Err(IDRequired);
      }
      if u.updatedAt == 0 {
        u := u.(updatedAt := now);
      }
      if !fault.NoFault? {
        return Err(Backend);
      }
      if u.id !in tasks {
        return Err(NotFound);
      }
      if !Updatable(Contents(), u) {
        return Err(Constraint);
      }
      if Terminal(u.state) {
        var event :- TaskResultEvent(u);
        outbox := outbox + [event];
      }
      tasks := tasks[u.id := UpdatedTaskRow(tasks[u.id], u)];
      return Ok(u);
    }
  }

  lemma NextInsertion(tasks: map<string, Task>, transitions: map<string, Transition>, news: seq<Task>,
                      transitionID: string,
                      ids: seq<Uuid>, now: Time, i: nat)
    requires i < |news| == |ids|
    ensures var t := NewTask(news[i], transitionID, ids[i], now);
            var before := NewTasks(news[..i], transitionID, ids[..i], now);
            && NewTasks(news[..i + 1], transitionID, ids[..i + 1], now) == before + [t]
            && InsertTasks(tasks, transitions, before + [t]) ==
               match InsertTasks(tasks, transitions, before)
               case None => None
               case Some(done) => if Insertable(done, transitions, t) then Some(done[t.id := Columns(t)]) else None
  {
    var t := NewTask(news[i], transitionID, ids[i], now);
    var before := NewTasks(news[..i], transitionID, ids[..i], now);
    assert news[..i + 1][..i] == news[..i] && ids[..i + 1][..i] == ids[..i];
    assert (before + [t])[..|before + [t]| - 1] == before;
  }

  /** Once a task cannot be inserted, no longer list of tasks is inserted either. */
  lemma {:induction false} InsertionStops(tasks: map<string, Task>, transitions: map<string, Transition>,
                                          news: seq<Task>, transitionID: string,
                                          ids: seq<Uuid>, now: Time, n: nat)
    requires n <= |news| == |ids|
    requires InsertTasks(tasks, transitions, NewTasks(news[..n], transitionID, ids[..n], now)).None?
    ensures InsertTasks(tasks, transitions, NewTasks(news, transitionID, ids, now)).None?
    decreases |news| - n
  {
    hide NewTask, Insertable, Columns;
    if n == |news| {
      assert news[..n] == news && ids[..n] == ids;
    } else {
      assert news[..n + 1][..n] == news[..n] && ids[..n + 1][..n] == ids[..n];
      var longer := NewTasks(news[..n + 1], transitionID, ids[..n + 1], now);
      assert longer[..n] == NewTasks(news[..n], transitionID, ids[..n], now);
      InsertionStops(tasks, transitions, news, transitionID, ids, now, n + 1);
    }
  }

  lemma {:induction false} EventsStop(news: seq<Task>, n: nat)
    requires n <= |news| && CreationEvents(news[..n]).Err?
    ensures CreationEvents(news) == CreationEvents(news[..n])
    decreases |news| - n
  {
    if n == |news| {
      assert news[..n] == news;
    } else {
      assert news[..n + 1][..n] == news[..n];
      EventsStop(news, n + 1);
    }
  }
}
