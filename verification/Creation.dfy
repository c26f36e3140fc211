/** What a committed creation adds to the database and to the engine's records of tasks, and that it keeps the
    invariant. */
module Creation {
  import opened Text
  import opened Records
  import opened PowerStates
  import opened Planning
  import opened TransitionStore
  import opened OutboxReplay
  import opened Sections
  import opened Engine
  import opened Placement
  import opened Ledger
  import opened Limiters
  import opened Evidence
  import opened Trails
  import opened EngineInvariant
  import opened EngineSteps

  /** The created tasks have ids of their own. */
  ghost predicate OwnIDs(taken: set<string>, news: seq<Task>) {
    && (forall i :: 0 <= i < |news| ==> news[i].id !in taken)
    && (forall i, j :: 0 <= i < j < |news| ==> news[i].id != news[j].id)
  }

  ghost predicate IsNew(news: seq<Task>, t: string) {
    exists i :: 0 <= i < |news| && news[i].id == t
  }

  lemma Prefix(taken: set<string>, news: seq<Task>)
    requires OwnIDs(taken, news) && news != []
    ensures OwnIDs(taken, news[..|news| - 1]) && !IsNew(news[..|news| - 1], news[|news| - 1].id)
  {
  }

  lemma NewLast(news: seq<Task>, t: string)
    requires news != []
    ensures IsNew(news, t) <==> IsNew(news[..|news| - 1], t) || t == news[|news| - 1].id
  {
    var n := |news| - 1;
    if IsNew(news[..n], t) {
      var i :| 0 <= i < n && news[..n][i].id == t;
      assert news[i].id == t;
    }
    if IsNew(news, t) && t != news[n].id {
      var i :| 0 <= i < |news| && news[i].id == t;
      assert news[..n][i].id == t;
    }
  }

  // ---------------------------------------------------------------- the rows

  lemma {:induction false} InsertedKeys(tasks: map<string, Task>, transitions: map<string, Transition>, news: seq<Task>,
                                        t: string)
    requires InsertTasks(tasks, transitions, news).Some?
    ensures var rows := InsertTasks(tasks, transitions, news).value;
            (t in rows <==> t in tasks || IsNew(news, t)) && (t in tasks ==> rows[t] == tasks[t] && !IsNew(news, t))
  {
    hide IsNew, Columns;
    if news != [] {
      NewLast(news, t);
      InsertedKeys(tasks, transitions, news[..|news| - 1], t);
    } else {
      assert !IsNew([], t) by { NothingNew(t); }
    }
  }

  lemma NothingNew(t: string)
    ensures !IsNew([], t)
  {
  }

  lemma {:induction false} InsertedRow(tasks: map<string, Task>, transitions: map<string, Transition>, news: seq<Task>,
                                       i: nat)
    requires InsertTasks(tasks, transitions, news).Some? && i < |news|
    ensures var rows := InsertTasks(tasks, transitions, news).value;
            && news[i].id in rows && rows[news[i].id] == Columns(news[i])
            && forall j :: 0 <= j < i ==> news[j].id != news[i].id
  {
    hide Columns;
    var n := |news| - 1;
    if i < n {
      InsertedRow(tasks, transitions, news[..n], i);
      assert news[..n][i] == news[i];
    } else {
      forall j | 0 <= j < i ensures news[j].id != news[i].id {
        assert IsNew(news[..n], news[j].id) by { assert news[..n][j].id == news[j].id; }
        InsertedKeys(tasks, transitions, news[..n], news[j].id);
      }
    }
  }

  lemma InsertedOwn(tasks: map<string, Task>, transitions: map<string, Transition>, news: seq<Task>)
    requires InsertTasks(tasks, transitions, news).Some?
    ensures OwnIDs(tasks.Keys, news)
  {
    hide InsertTasks, Columns;
    forall i | 0 <= i < |news| ensures news[i].id !in tasks && forall j :: 0 <= j < i ==> news[j].id != news[i].id {
      assert IsNew(news, news[i].id);
      InsertedKeys(tasks, transitions, news, news[i].id);
      InsertedRow(tasks, transitions, news, i);
    }
  }

  // ---------------------------------------------------------------- the outbox

  lemma ResultKind(t: Task)
    requires TaskResultEvent(t).Ok?
    ensures TaskResultEvent(t).value.TaskResult?
  {
    hide TrimSpace;
  }

  lemma {:induction false} CreationTrail(outbox: seq<Event>, news: seq<Task>, c: string)
    requires CreationEvents(news).Ok?
    ensures Trail(outbox + CreationEvents(news).value, c) == Trail(outbox, c)
  {
    hide TaskResultEvent, Trail;
    if news == [] {
      assert outbox + [] == outbox;
    } else {
      var n := |news| - 1;
      CreationTrail(outbox, news[..n], c);
      var events := CreationEvents(news[..n]).value;
      if Terminal(news[n].state) {
        var e := TaskResultEvent(news[n]).value;
        ResultKind(news[n]);
        OneMore(outbox + events, e, c);
        assert outbox + (events + [e]) == outbox + events + [e];
      }
    }
  }

  lemma ResultEvent(t: Task)
    requires Tidy(t) && TaskResultEvent(t).Ok?
    ensures var e := TaskResultEvent(t).value;
            e.TaskResult? && e.taskID == t.id && e.task.state == t.state
  {
    EventColumns(t);
  }

  /** A created task that is terminal gets one result; all other tasks get none. */
  lemma {:induction false} CreationResults(outbox: seq<Event>, news: seq<Task>, t: string)
    requires CreationEvents(news).Ok? && AllTidy(news)
    ensures !IsNew(news, t) ==> Results(outbox + CreationEvents(news).value, t) == Results(outbox, t)
    ensures OwnIDs({}, news) ==> forall i :: 0 <= i < |news| && news[i].id == t ==>
              Results(outbox + CreationEvents(news).value, t) == Results(outbox, t) + if Terminal(news[i].state)
                then [news[i].state] else []
  {
    hide Tidy, TaskResultEvent, Terminal;
    if news == [] {
      assert outbox + [] == outbox;
    } else {
      var n := |news| - 1;
      assert news[n] == news[..n + 1][n];
      CreationResults(outbox, news[..n], t);
      var events := CreationEvents(news[..n]).value;
      NewLast(news, t);
      if OwnIDs({}, news) {
        Prefix({}, news);
        assert forall i :: 0 <= i < n ==> news[..n][i] == news[i];
      }
      if Terminal(news[n].state) {
        var e := TaskResultEvent(news[n]).value;
        ResultEvent(news[n]);
        OneMore(outbox + events, e, t);
        assert outbox + (events + [e]) == outbox + events + [e];
      } else {
        assert Results(outbox, t) + [] == Results(outbox, t);
      }
    }
  }

  // ---------------------------------------------------------------- the engine's records

  lemma {:induction false} AddedKeys(made: map<string, Made>, places: map<string, Place>, work: map<string, Work>,
                                     news: seq<Task>, op: PowerStates.Operation, t: string)
    requires made.Keys == places.Keys == work.Keys && OwnIDs(made.Keys, news)
    ensures var m, p, k := AddMade(made, news, op), AddPlaces(places, news), AddWork(work, news);
            && (t in m <==> t in made || IsNew(news, t)) && (t in p <==> t in m) && (t in k <==> t in m)
            && (t in made ==> m[t] == made[t] && p[t] == places[t] && k[t] == work[t])
  {
    hide FirstPlace, IsNew;
    if news == [] {
      NothingNew(t);
    } else {
      Prefix(made.Keys, news);
      AddedKeys(made, places, work, news[..|news| - 1], op, t);
      NewLast(news, t);
    }
  }

  lemma {:induction false} AddedAt(made: map<string, Made>, places: map<string, Place>, work: map<string, Work>,
                                   news: seq<Task>, op: PowerStates.Operation, i: nat)
    requires i < |news| && OwnIDs({}, news)
    ensures var m, p, k, t := AddMade(made, news, op), AddPlaces(places, news), AddWork(work, news), news[i].id;
            t in m && t in p && t in k && m[t] == Made(news[i], op) && p[t] == FirstPlace(news[i]) && k[t] == NO_WORK
  {
    hide FirstPlace;
    var n := |news| - 1;
    if i < n {
      assert OwnIDs({}, news[..n]);
      AddedAt(made, places, work, news[..n], op, i);
    }
  }

  lemma Added(made: map<string, Made>, places: map<string, Place>, work: map<string, Work>, news: seq<Task>,
              op: PowerStates.Operation, t: string)
    requires made.Keys == places.Keys == work.Keys && OwnIDs(made.Keys, news)
    ensures var m, p, k := AddMade(made, news, op), AddPlaces(places, news), AddWork(work, news);
            && (t in m <==> t in made || IsNew(news, t)) && (t in p <==> t in m) && (t in k <==> t in m)
            && (t in made ==> m[t] == made[t] && p[t] == places[t] && k[t] == work[t])
            && (forall i :: 0 <= i < |news| && news[i].id == t ==>
                  t in m && m[t] == Made(news[i], op) && p[t] == FirstPlace(news[i]) && k[t] == NO_WORK)
  {
    hide FirstPlace, AddMade, AddPlaces, AddWork, IsNew;
    AddedKeys(made, places, work, news, op, t);
    assert OwnIDs({}, news);
    forall i | 0 <= i < |news| && news[i].id == t
      ensures t in AddMade(made, news, op) && AddMade(made, news, op)[t] == Made(news[i], op)
      ensures AddPlaces(places, news)[t] == FirstPlace(news[i]) && AddWork(work, news)[t] == NO_WORK
    {
      AddedAt(made, places, work, news, op, i);
    }
  }

  /** A new task waits or is counted already. */
  lemma AddedPlace(made: map<string, Made>, places: map<string, Place>, work: map<string, Work>, news: seq<Task>,
                   op: PowerStates.Operation, t: string)
    requires made.Keys == places.Keys == work.Keys && OwnIDs(made.Keys, news) && t !in made
    requires t in AddPlaces(places, news)
    ensures AddPlaces(places, news)[t].Waiting? || AddPlaces(places, news)[t].Done?
  {
    hide AddMade, AddPlaces, AddWork, OwnIDs;
    Added(made, places, work, news, op, t);
  }

  /** The items of a registration are the pending tasks, each once. */
  lemma {:induction false} Pendings(id: string, op: PowerStates.Operation, news: seq<Task>, j: nat)
    requires OwnIDs({}, news)
    ensures var items := PendingItems(id, op, news);
            && |items| == CountState(news, Pending)
            && (j < |items| ==>
                  items[j].transitionID == id && items[j].operation == op && items[j].task.state.Pending? &&
                  items[j].task in news)
            && (forall k :: j < k < |items| ==> items[j].task.id != items[k].task.id)
  {
    if news != [] {
      var n := |news| - 1;
      var before := PendingItems(id, op, news[..n]);
      Prefix({}, news);
      Pendings(id, op, news[..n], j);
      var items := PendingItems(id, op, news);
      if j < |items| {
        assert j < |before| ==> items[j] == before[j] && items[j].task in news;
        forall k | j < k < |items| ensures items[j].task.id != items[k].task.id {
          if k < |before| {
            assert items[k] == before[k];
          } else {
            assert items[k].task == news[n] && before[j].task in news[..n];
            var i :| 0 <= i < n && news[..n][i] == before[j].task;
            assert news[..n][i].id != news[n].id;
          }
        }
      }
    }
  }

  lemma {:induction false} PendingFound(id: string, op: PowerStates.Operation, news: seq<Task>, i: nat)
    requires i < |news| && news[i].state.Pending?
    ensures InItems(PendingItems(id, op, news), news[i].id)
  {
    var n := |news| - 1;
    var items := PendingItems(id, op, news);
    if i < n {
      PendingFound(id, op, news[..n], i);
      var before := PendingItems(id, op, news[..n]);
      var j :| 0 <= j < |before| && before[j].task.id == news[..n][i].id;
      assert items[j].task.id == news[i].id;
    } else {
      assert items[|items| - 1].task.id == news[n].id;
    }
  }

  // ---------------------------------------------------------------- counting the created tasks

  function IDsIn(news: seq<Task>, s: TaskState): set<string> {
    set i | 0 <= i < |news| && news[i].state == s :: news[i].id
  }

  lemma {:induction false} CountIDs(news: seq<Task>, s: TaskState)
    requires OwnIDs({}, news)
    ensures |IDsIn(news, s)| == CountState(news, s)
  {
    if news != [] {
      var n := |news| - 1;
      Prefix({}, news);
      CountIDs(news[..n], s);
      LastCounted(news, s);
    }
  }

  lemma LastCounted(news: seq<Task>, s: TaskState)
    requires OwnIDs({}, news) && news != []
    ensures var n := |news| - 1;
            && news[n].id !in IDsIn(news[..n], s)
            && IDsIn(news, s) == if news[n].state == s then IDsIn(news[..n], s) + {news[n].id} else IDsIn(news[..n], s)
  {
    var n := |news| - 1;
    assert news[..n] + [news[n]] == news;
    forall x ensures x in IDsIn(news, s) <==> x in IDsIn(news[..n], s) || (x == news[n].id && news[n].state == s) {
      CountedLast(news, s, x);
    }
  }

  lemma CountedLast(news: seq<Task>, s: TaskState, x: string)
    requires news != []
    ensures var n := |news| - 1;
            x in IDsIn(news, s) <==> x in IDsIn(news[..n], s) || (x == news[n].id && news[n].state == s)
  {
    var n := |news| - 1;
    if x in IDsIn(news[..n], s) {
      var i :| 0 <= i < n && news[..n][i].state == s && news[..n][i].id == x;
      assert news[i].state == s && news[i].id == x;
    }
    if x in IDsIn(news, s) && !(x == news[n].id && news[n].state == s) {
      var i :| 0 <= i < |news| && news[i].state == s && news[i].id == x;
      assert news[..n][i].state == s && news[..n][i].id == x;
    }
  }

  lemma {:induction false} NoneCounted(tasks: seq<Task>, s: TaskState)
    ensures CountState(tasks, s) == 0 <==> forall i :: 0 <= i < |tasks| ==> tasks[i].state != s
  {
    if tasks != [] {
      var n := |tasks| - 1;
      NoneCounted(tasks[..n], s);
      assert forall i :: 0 <= i < n ==> tasks[..n][i] == tasks[i];
    }
  }

  lemma {:induction false} SameCount(a: seq<Task>, b: seq<Task>, s: TaskState)
    requires |a| == |b| && forall i :: 0 <= i < |a| ==> a[i].state == b[i].state
    ensures CountState(a, s) == CountState(b, s)
  {
    if a != [] {
      SameCount(a[..|a| - 1], b[..|b| - 1], s);
    }
  }

  lemma {:induction false} TwoStates(news: seq<Task>)
    requires forall i :: 0 <= i < |news| ==> news[i].state.Pending? || news[i].state.Failed?
    ensures CountState(news, Pending) + CountState(news, Failed) == |news|
    ensures OwnIDs({}, news) ==> IDsIn(news, Pending) !! IDsIn(news, Failed)
  {
    if news != [] {
      TwoStates(news[..|news| - 1]);
    }
  }

  function AllIDs(news: seq<Task>): set<string> {
    set i | 0 <= i < |news| :: news[i].id
  }

  lemma {:induction false} CountAll(news: seq<Task>)
    requires OwnIDs({}, news)
    ensures |AllIDs(news)| == |news|
  {
    hide OwnIDs;
    if news != [] {
      var n := |news| - 1;
      Prefix({}, news);
      CountAll(news[..n]);
      assert AllIDs(news) == AllIDs(news[..n]) + {news[n].id} by {
        assert forall i :: 0 <= i < n ==> news[..n][i] == news[i];
      }
      assert news[n].id !in AllIDs(news[..n]) by {
        assert forall i :: 0 <= i < n ==> news[..n][i].id != news[n].id;
      }
    }
  }

  // ---------------------------------------------------------------- what is new

  ghost predicate GoodTask(id: string, t: Task) {
    t.transitionID == id && TidyRoute(t) && (t.state.Pending? || t.state.Failed? || t.state.Planned?)
  }

  ghost predicate GoodNews(id: string, news: seq<Task>) {
    forall i :: 0 <= i < |news| ==> GoodTask(id, news[i])
  }

  /** Task `t` as the engine and the database have it after its creation. */
  ghost predicate NewAt(s: State, op: Operation, t: Task) {
    && t.id in s.made && s.made[t.id] == Made(t, op)
    && t.id in s.places && s.places[t.id] == FirstPlace(t)
    && t.id in s.work && s.work[t.id] == NO_WORK
  }

  ghost predicate RowAt(s: State, t: Task) {
    && t.id in s.db.tasks && s.db.tasks[t.id] == Columns(t)
    && Results(s.db.outbox, t.id) == if Terminal(t.state) then [t.state] else []
  }

  ghost predicate OldAt(s: State, s': State, t: string) {
    t in s.made ==>
      && t in s'.made && s'.made[t] == s.made[t]
      && t in s.places && t in s'.places && s'.places[t] == s.places[t]
      && t in s.work && t in s'.work && s'.work[t] == s.work[t]
      && t in s.db.tasks && t in s'.db.tasks && s'.db.tasks[t] == s.db.tasks[t]
      && Results(s'.db.outbox, t) == Results(s.db.outbox, t)
  }

  /** The call that goes on after the creation. */
  ghost predicate NewCall(id: string, op: Operation, news: seq<Task>, c: Call) {
    match c
    case Finishing(row) => row.id == id && forall i :: 0 <= i < |news| ==> !news[i].state.Pending?
    case Registering(row, items) =>
      && items == PendingItems(id, op, news) && items != []
      && row.id == id && row.state == TPending && row.completedAt.None?
      && row.targetCount == |news| && row.successCount == 0 && row.failureCount == CountState(news, Failed)
      && (forall i :: 0 <= i < |news| ==> !news[i].state.Planned?)
    case Enqueueing(_) => false
  }

  /** The created tasks, and the old ones as they were. */
  ghost predicate NewTasksIn(s: State, s': State, id: string, op: Operation, news: seq<Task>) {
    && s'.made.Keys == s'.places.Keys == s'.work.Keys == s'.db.tasks.Keys
    && (forall t :: OldAt(s, s', t))
    && (forall t :: t in s'.made && t !in s.made ==> IsNew(news, t))
    && (forall i :: 0 <= i < |news| ==>
          NewAt(s', op, news[i]) && RowAt(s', news[i]) && GoodTask(id, news[i]) && news[i].id !in s.made)
    && OwnIDs({}, news)
  }

  /** The created transition is unknown to everything the engine had before. */
  ghost predicate Unheard(s: State, id: string) {
    && id !in s.db.transitions && !IsRegistered(s, id) && id !in s.calls && id !in s.aborts
    && (forall t :: t in s.made ==> s.made[t].task.transitionID != id)
  }

  ghost predicate Elsewhere(s: State, s': State) {
    && s'.limits == s.limits && s'.progress == s.progress && s'.closed == s.closed && s'.markers == s.markers
    && s'.canceled == s.canceled && s'.aborts == s.aborts && s'.queue == s.queue && s'.shutdown == s.shutdown
    && s'.workers == s.workers && s'.limiters == s.limiters
  }

  /** State `s'` has transition `row` with its tasks `news` and call `c` beside what `s` has. */
  ghost predicate Born(s: State, s': State, row: Transition, op: Operation, news: seq<Task>, c: Call) {
    && NewTasksIn(s, s', row.id, op, news) && Elsewhere(s, s') && Unheard(s, row.id)
    && s'.calls == s.calls[row.id := c] && NewCall(row.id, op, news, c) && (c.Registering? ==> c.transition == row)
    && s'.db.transitions == s.db.transitions[row.id := row] && Trimmed(row.id) && row.id != ""
    && (forall d :: TrailOf(s', d) == if d == row.id then [KindOfWrite(row)] else TrailOf(s, d))
  }

  lemma Appears(s: State, s': State, id: string, op: Operation, news: seq<Task>, t: string) returns (n: Task)
    requires NewTasksIn(s, s', id, op, news) && t in s'.made && t !in s.made
    ensures n in news && n.id == t && NewAt(s', op, n) && RowAt(s', n) && GoodTask(id, n)
  {
    hide GoodTask, NewAt, RowAt, OldAt;
    assert IsNew(news, t);
    var i :| 0 <= i < |news| && news[i].id == t;
    n := news[i];
  }

  // ---------------------------------------------------------------- places

  lemma BornItems(s: State, s': State, id: string, op: Operation, news: seq<Task>, j: nat)
    requires NewTasksIn(s, s', id, op, news)
    ensures var items := PendingItems(id, op, news);
            j < |items| ==>
              && Known(s'.made, items[j]) && items[j].transitionID == id
              && items[j].task.id in s'.places && s'.places[items[j].task.id] == Waiting
              && forall k :: j < k < |items| ==> items[j].task.id != items[k].task.id
  {
    hide OldAt, RowAt, TidyRoute;
    var items := PendingItems(id, op, news);
    Pendings(id, op, news, j);
    if j < |items| {
      var i :| 0 <= i < |news| && news[i] == items[j].task;
      assert NewAt(s', op, news[i]) && GoodTask(id, news[i]);
    }
  }

  /** The items a new call will offer are known, waiting tasks of its transition, each once. */
  lemma BornCall(s: State, s': State, row: Transition, op: Operation, news: seq<Task>, c: Call)
    requires Born(s, s', row, op, news, c)
    ensures CallOK(s'.places, row.id, c) && forall i :: 0 <= i < |Items(c)| ==> Known(s'.made, Items(c)[i])
  {
    hide NewTasksIn, Elsewhere, Unheard, Known, PendingItems, TrailOf;
    forall j | 0 <= j < |Items(c)|
      ensures Known(s'.made, Items(c)[j]) && Items(c)[j].transitionID == row.id
      ensures Items(c)[j].task.id in s'.places && s'.places[Items(c)[j].task.id] == Waiting
      ensures forall k :: j < k < |Items(c)| ==> Items(c)[j].task.id != Items(c)[k].task.id
    {
      BornItems(s, s', row.id, op, news, j);
    }
  }

  lemma OldKnown(s: State, s': State, item: Item)
    requires OldAt(s, s', item.task.id) && Known(s.made, item)
    ensures Known(s'.made, item)
  {
    hide Results;
  }

  lemma BornAllKnown(s: State, s': State, row: Transition, op: Operation, news: seq<Task>, c: Call)
    requires AllKnown(s.made, s.queue, s.calls, s.workers) && Born(s, s', row, op, news, c)
    requires forall i :: 0 <= i < |Items(c)| ==> Known(s'.made, Items(c)[i])
    ensures AllKnown(s'.made, s'.queue, s'.calls, s'.workers)
  {
    hide OldAt, NewAt, RowAt, GoodTask, OwnIDs, Unheard, NewCall, TrailOf, Known, IsNew;
    forall item | Known(s.made, item) ensures Known(s'.made, item) {
      assert OldAt(s, s', item.task.id);
      OldKnown(s, s', item);
    }
  }

  /** A new task waits or is already counted. */
  lemma BornPlace(s: State, s': State, id: string, op: Operation, news: seq<Task>, t: string)
    requires NewTasksIn(s, s', id, op, news) && t in s'.made
    ensures t in s'.places
    ensures if t in s.made then t in s.places && s'.places[t] == s.places[t] && s'.made[t] == s.made[t]
            else s'.places[t] == FirstPlace(s'.made[t].task) && s'.made[t].task.transitionID == id && IsNew(news, t)
  {
    hide GoodTask, RowAt, FirstPlace;
    if t in s.made {
      assert OldAt(s, s', t);
    } else {
      var n := Appears(s, s', id, op, news, t);
      assert n.transitionID == id by { GoodID(id, n); }
    }
  }

  lemma GoodID(id: string, t: Task)
    requires GoodTask(id, t)
    ensures t.transitionID == id
  {
    hide TidyRoute;
  }

  lemma BornWaiting(s: State, s': State, row: Transition, op: Operation, news: seq<Task>, c: Call, t: string)
    requires WaitingFound(s.made, s.places, s.calls) && Born(s, s', row, op, news, c)
    requires t in s'.places && s'.places[t] == Waiting
    ensures t in s'.made && s'.made[t].task.transitionID in s'.calls
    ensures InItems(Items(s'.calls[s'.made[t].task.transitionID]), t)
  {
    hide NewTasksIn, PendingItems, InItems, TrailOf, Elsewhere;
    assert t in s'.made by { BornKeys(s, s', row.id, op, news); }
    BornPlace(s, s', row.id, op, news, t);
    if t !in s.made {
      BornPending(s, s', row.id, op, news, t);
    }
  }

  lemma BornKeys(s: State, s': State, id: string, op: Operation, news: seq<Task>)
    requires NewTasksIn(s, s', id, op, news)
    ensures s'.made.Keys == s'.places.Keys == s'.work.Keys == s'.db.tasks.Keys
  {
  }

  lemma BornPending(s: State, s': State, id: string, op: Operation, news: seq<Task>, t: string)
    requires NewTasksIn(s, s', id, op, news) && t in s'.made && t !in s.made && s'.made[t].task.state.Pending?
    ensures InItems(PendingItems(id, op, news), t) && exists i :: 0 <= i < |news| && news[i].state.Pending?
  {
    hide OldAt, RowAt, GoodTask, InItems, PendingItems;
    assert IsNew(news, t);
    var i :| 0 <= i < |news| && news[i].id == t;
    assert NewAt(s', op, news[i]);
    PendingFound(id, op, news, i);
  }

  /** Old tasks keep their places, new ones wait or are counted. */
  ghost predicate PlacesGrow(places: map<string, Place>, places': map<string, Place>) {
    && (forall t :: t in places ==> t in places' && places'[t] == places[t])
    && (forall t :: t in places' && t !in places ==> places'[t].Waiting? || places'[t].Done?)
  }

  lemma GrowingPlaces(places: map<string, Place>, places': map<string, Place>, queue: seq<Item>, workers: seq<Worker>)
    requires PlacesGrow(places, places') && QueueOK(places, queue) && WorkersOK(places, workers)
    ensures QueueOK(places', queue) && WorkersOK(places', workers)
  {
    forall t | t in places' && places'[t] == Queued ensures InItems(queue, t) { assert t in places; }
    forall t | t in places' && places'[t].Held? ensures Holds(workers, places'[t].worker, t) { assert t in places; }
  }

  lemma GrowingCalls(places: map<string, Place>, places': map<string, Place>, calls: map<string, Call>)
    requires PlacesGrow(places, places') && CallsOK(places, calls)
    ensures CallsOK(places', calls)
  {
    forall d | d in calls ensures CallOK(places', d, calls[d]) { assert CallOK(places, d, calls[d]); }
  }

  lemma BornPlaces(s: State, s': State, row: Transition, op: Operation, news: seq<Task>, c: Call)
    requires Placed(s) && Born(s, s', row, op, news, c)
    ensures PlacesGrow(s.places, s'.places) && Named(s'.made)
  {
    hide NewTasksIn, Unheard, Elsewhere, NewCall, TrailOf, Known, QueueOK, CallsOK, WorkersOK, WaitingFound, AllKnown;
    BornKeys(s, s', row.id, op, news);
    forall t | t in s'.places
      ensures if t in s.places then s'.places[t] == s.places[t] else s'.places[t].Waiting? || s'.places[t].Done?
      ensures s'.made[t].task.id == t
    {
      BornPlace(s, s', row.id, op, news, t);
      BornName(s, s', row.id, op, news, t);
    }
    forall t | t in s.places ensures t in s'.places { BornStays(s, s', row.id, op, news, t); }
  }

  lemma BornStays(s: State, s': State, id: string, op: Operation, news: seq<Task>, t: string)
    requires NewTasksIn(s, s', id, op, news)
    ensures OldAt(s, s', t)
  {
    hide OldAt, NewAt, RowAt, GoodTask;
  }

  lemma BornName(s: State, s': State, id: string, op: Operation, news: seq<Task>, t: string)
    requires Named(s.made) && NewTasksIn(s, s', id, op, news) && t in s'.made
    ensures s'.made[t].task.id == t
  {
    hide RowAt, GoodTask;
    if t in s.made {
      assert OldAt(s, s', t);
    } else {
      var n := Appears(s, s', id, op, news, t);
    }
  }

  lemma BornPlaced(s: State, s': State, row: Transition, op: Operation, news: seq<Task>, c: Call)
    requires Placed(s) && Born(s, s', row, op, news, c)
    ensures Placed(s')
  {
    hide NewTasksIn, Unheard, NewCall, TrailOf, AllKnown, QueueOK, CallOK, WorkersOK, Named, InItems;
    BornCall(s, s', row, op, news, c);
    BornAllKnown(s, s', row, op, news, c);
    BornKeys(s, s', row.id, op, news);
    BornPlaces(s, s', row, op, news, c);
    GrowingPlaces(s.places, s'.places, s.queue, s.workers);
    GrowingCalls(s.places, s'.places, s.calls);
    hide PlacesGrow;
    forall t | t in s'.places && s'.places[t] == Waiting
      ensures t in s'.made && s'.made[t].task.transitionID in s'.calls
      ensures InItems(Items(s'.calls[s'.made[t].task.transitionID]), t)
    {
      BornWaiting(s, s', row, op, news, c, t);
    }
  }

  // ---------------------------------------------------------------- counts

  /** The counts of other transitions are as before. */
  lemma BornElsewhere(s: State, s': State, id: string, op: Operation, news: seq<Task>, c: string, p: Progress)
    requires s.made.Keys == s.places.Keys && NewTasksIn(s, s', id, op, news) && c != id
    requires Balanced(s.made, s.places, c, p)
    ensures Balanced(s'.made, s'.places, c, p)
  {
    hide NewTasksIn;
    forall k ensures Members(s'.made, s'.places, c, k) == Members(s.made, s.places, c, k) {
      forall t ensures t in Members(s'.made, s'.places, c, k) <==> t in Members(s.made, s.places, c, k) {
        BornMemberElsewhere(s, s', id, op, news, c, k, t);
      }
    }
    hide Members;
  }

  lemma BornMemberElsewhere(s: State, s': State, id: string, op: Operation, news: seq<Task>, c: string, k: Kind,
                            t: string)
    requires s.made.Keys == s.places.Keys && NewTasksIn(s, s', id, op, news) && c != id
    ensures t in Members(s'.made, s'.places, c, k) <==> t in Members(s.made, s.places, c, k)
  {
    hide NewTasksIn, IsKind;
    BornStays(s, s', id, op, news, t);
    if t in s'.made {
      BornPlace(s, s', id, op, news, t);
    }
  }

  /** The states whose created tasks are of kind `k`. */
  predicate OfKind(k: Kind, s: TaskState) {
    match k
    case Every => true
    case Open => s.Pending?
    case Executable => s.Pending?
    case Bad => s.Failed?
    case Good => false
    case CanceledOne => false
  }

  lemma NewKind(s: State, id: string, op: Operation, t: Task, k: Kind)
    requires NewAt(s, op, t) && t.transitionID == id && (t.state.Pending? || t.state.Failed?)
    ensures t.id in Members(s.made, s.places, id, k) <==> OfKind(k, t.state)
  {
  }

  /** The tasks `news` are all pending or failed. */
  ghost predicate NonePlanned(news: seq<Task>) {
    forall i :: 0 <= i < |news| ==> news[i].state.Pending? || news[i].state.Failed?
  }

  lemma BornMember(s: State, s': State, id: string, op: Operation, news: seq<Task>, k: Kind, t: string)
    requires NewTasksIn(s, s', id, op, news) && Unheard(s, id) && NonePlanned(news)
    ensures t in Members(s'.made, s'.places, id, k) <==>
            exists i :: 0 <= i < |news| && news[i].id == t && OfKind(k, news[i].state)
  {
    hide IsKind, NewAt, OfKind, OldAt, RowAt, GoodTask;
    if t in s'.made && s'.made[t].task.transitionID == id {
      assert OldAt(s, s', t);
      Unrelated(s, s', id, t);
      var n := Appears(s, s', id, op, news, t);
    }
    forall i | 0 <= i < |news| ensures news[i].id in Members(s'.made, s'.places, id, k) <==> OfKind(k, news[i].state) {
      assert NewAt(s', op, news[i]) && GoodTask(id, news[i]);
      GoodID(id, news[i]);
      NewKind(s', id, op, news[i], k);
    }
  }

  lemma Unrelated(s: State, s': State, id: string, t: string)
    requires Unheard(s, id) && OldAt(s, s', t) && t in s'.made && s'.made[t].task.transitionID == id
    ensures t !in s.made
  {
    hide Results;
  }

  lemma BornTally(s: State, s': State, id: string, op: Operation, news: seq<Task>, k: Kind)
    requires NewTasksIn(s, s', id, op, news) && Unheard(s, id) && NonePlanned(news)
    ensures Tally(s'.made, s'.places, id, k) ==
            match k
            case Every => |news|
            case Open => CountState(news, Pending)
            case Executable => CountState(news, Pending)
            case Bad => CountState(news, Failed)
            case Good => 0
            case CanceledOne => 0
  {
    hide NewTasksIn, Unheard, OfKind, IsKind, IDsIn, CountState, NonePlanned, OwnIDs;
    BornOwn(s, s', id, op, news);
    forall t
      ensures t in Members(s'.made, s'.places, id, k) <==>
              exists i :: 0 <= i < |news| && news[i].id == t && OfKind(k, news[i].state)
    {
      BornMember(s, s', id, op, news, k, t);
    }
    assert Members(s'.made, s'.places, id, k) == KindIDs(news, k);
    KindCount(news, k);
  }

  function KindIDs(news: seq<Task>, k: Kind): set<string> {
    set i | 0 <= i < |news| && OfKind(k, news[i].state) :: news[i].id
  }

  lemma KindSets(news: seq<Task>, k: Kind)
    requires NonePlanned(news)
    ensures KindIDs(news, k) ==
            match k
            case Every => IDsIn(news, Pending) + IDsIn(news, Failed)
            case Open => IDsIn(news, Pending)
            case Executable => IDsIn(news, Pending)
            case Bad => IDsIn(news, Failed)
            case Good => {}
            case CanceledOne => {}
  {
  }

  lemma KindCount(news: seq<Task>, k: Kind)
    requires OwnIDs({}, news) && NonePlanned(news)
    ensures |KindIDs(news, k)| ==
            match k
            case Every => |news|
            case Open => CountState(news, Pending)
            case Executable => CountState(news, Pending)
            case Bad => CountState(news, Failed)
            case Good => 0
            case CanceledOne => 0
  {
    hide OwnIDs, CountState, KindIDs, IDsIn;
    KindSets(news, k);
    TwoStates(news);
    CountIDs(news, Pending);
    CountIDs(news, Failed);
  }

  /** What the call will register is what was created. */
  lemma BornBalanced(s: State, s': State, row: Transition, op: Operation, news: seq<Task>, c: Call)
    requires Born(s, s', row, op, news, c) && CanRegister(s', row.id)
    ensures Balanced(s'.made, s'.places, row.id, Registered(row, CountState(news, Pending)))
    ensures c.Registering? && |c.items| == CountState(news, Pending) > 0 && c.transition == row
  {
    hide NewTasksIn, Elsewhere, Unheard, Tally, TrailOf;
    assert NonePlanned(news) by { BornStates(s, s', row, op, news, c); }
    Pendings(row.id, op, news, 0) by { BornOwn(s, s', row.id, op, news); }
    BornTally(s, s', row.id, op, news, Every);
    BornTally(s, s', row.id, op, news, Open);
    BornTally(s, s', row.id, op, news, Executable);
    BornTally(s, s', row.id, op, news, Bad);
    BornTally(s, s', row.id, op, news, Good);
    BornTally(s, s', row.id, op, news, CanceledOne);
    hide PendingItems;
  }

  lemma BornOwn(s: State, s': State, id: string, op: Operation, news: seq<Task>)
    requires NewTasksIn(s, s', id, op, news)
    ensures OwnIDs({}, news)
  {
  }

  lemma BornStates(s: State, s': State, row: Transition, op: Operation, news: seq<Task>, c: Call)
    requires Born(s, s', row, op, news, c) && c.Registering?
    ensures NonePlanned(news)
  {
    hide OldAt, NewAt, RowAt, TidyRoute, Unheard, Elsewhere, TrailOf, PendingItems;
    forall i | 0 <= i < |news| ensures news[i].state.Pending? || news[i].state.Failed? {
      assert GoodTask(row.id, news[i]);
    }
  }

  lemma BornAccounted(s: State, s': State, row: Transition, op: Operation, news: seq<Task>, c: Call, t: string)
    requires Counts(s) && Born(s, s', row, op, news, c) && t in s'.made
    ensures t in s'.places
    ensures !s'.places[t].Done? ==> Accounted(s'.calls, s'.progress, s'.made[t].task.transitionID)
    ensures s'.made[t].task.state.Pending? ==>
              Accounted(s'.calls, s'.progress, s'.made[t].task.transitionID) ||
                s'.made[t].task.transitionID in s'.closed
  {
    hide Active, Fresh, Settled, NewTasksIn, TrailOf, PendingItems;
    BornPlace(s, s', row.id, op, news, t);
    if t !in s.made && s'.made[t].task.state.Pending? {
      BornPending(s, s', row.id, op, news, t);
    }
  }

  lemma BornEntries(s: State, s': State, row: Transition, op: Operation, news: seq<Task>, c: Call, d: string)
    requires Counts(s) && Born(s, s', row, op, news, c)
    ensures d in s'.progress ==> Active(s'.made, s'.places, s'.calls, s'.closed, d, s'.progress[d])
    ensures d in s'.closed ==> Settled(s'.made, s'.places, s'.calls, d, s'.closed[d].progress)
  {
    hide Balanced, Members, Tally, NewTasksIn, NewCall, TrailOf, Accounted, Unheard, Fresh, FinalState;
    NewEntry(s, s', row, op, news, c);
    if d in s.progress {
      assert Active(s.made, s.places, s.calls, s.closed, d, s.progress[d]);
      BornElsewhere(s, s', row.id, op, news, d, s.progress[d]);
    }
    if d in s.closed {
      assert Settled(s.made, s.places, s.calls, d, s.closed[d].progress);
      BornElsewhere(s, s', row.id, op, news, d, s.closed[d].progress);
    }
  }

  lemma BornFresh(s: State, s': State, row: Transition, op: Operation, news: seq<Task>, c: Call, d: string)
    requires Counts(s) && Born(s, s', row, op, news, c)
    ensures CanRegister(s', d) ==> Fresh(s'.made, s'.places, s'.progress, s'.closed, d, s'.calls[d])
  {
    hide Balanced, Members, Tally, NewTasksIn, NewCall, TrailOf, Accounted, Unheard, Active, Settled;
    NewEntry(s, s', row, op, news, c);
    if d != row.id && CanRegister(s, d) {
      var e := s.calls[d];
      assert Fresh(s.made, s.places, s.progress, s.closed, d, e);
      BornElsewhere(s, s', row.id, op, news, d, Registered(e.transition, |e.items|));
    }
  }

  lemma BornCounts(s: State, s': State, row: Transition, op: Operation, news: seq<Task>, c: Call)
    requires Counts(s) && Born(s, s', row, op, news, c)
    ensures Counts(s')
  {
    hide Active, Fresh, Settled, NewTasksIn, NewCall, TrailOf, Accounted, Unheard;
    BornKeys(s, s', row.id, op, news);
    NewEntry(s, s', row, op, news, c);
    forall t | t in s'.made
      ensures !s'.places[t].Done? ==> Accounted(s'.calls, s'.progress, s'.made[t].task.transitionID)
      ensures s'.made[t].task.state.Pending? ==>
                Accounted(s'.calls, s'.progress, s'.made[t].task.transitionID) ||
                  s'.made[t].task.transitionID in s'.closed
    {
      BornAccounted(s, s', row, op, news, c, t);
    }
    forall d
      ensures d in s'.progress ==> Active(s'.made, s'.places, s'.calls, s'.closed, d, s'.progress[d])
      ensures d in s'.closed ==> Settled(s'.made, s'.places, s'.calls, d, s'.closed[d].progress)
      ensures CanRegister(s', d) ==> Fresh(s'.made, s'.places, s'.progress, s'.closed, d, s'.calls[d])
    {
      BornEntries(s, s', row, op, news, c, d);
      BornFresh(s, s', row, op, news, c, d);
    }
  }

  lemma NewEntry(s: State, s': State, row: Transition, op: Operation, news: seq<Task>, c: Call)
    requires Born(s, s', row, op, news, c)
    ensures row.id !in s.progress && row.id !in s.closed && row.id !in s.calls && !c.Enqueueing?
    ensures c.Registering? ==> Fresh(s'.made, s'.places, s'.progress, s'.closed, row.id, c)
  {
    hide Balanced, NewTasksIn, TrailOf, PendingItems;
    if c.Registering? {
      BornBalanced(s, s', row, op, news, c);
    }
  }

  // ---------------------------------------------------------------- evidence and rows

  /** A new task needs no evidence yet, and its row and result are what was inserted. */
  lemma NewTaskOK(s: State, id: string, op: Operation, t: Task)
    requires GoodTask(id, t) && NewAt(s, op, t) && RowAt(s, t)
    ensures TaskOK(s, t.id) && PublishedOK(s, t.id)
  {
    hide TidyRoute, Results, DutyOK, RowOK;
  }

  lemma OldTaskOK(s: State, s': State, t: string)
    requires OldAt(s, s', t) && Elsewhere(s, s') && t in s.made
    ensures TaskOK(s, t) ==> TaskOK(s', t)
    ensures PublishedOK(s, t) ==> PublishedOK(s', t)
  {
    hide RestOK, DutyOK, Results, TableOK;
  }

  lemma BornTasks(s: State, s': State, row: Transition, op: Operation, news: seq<Task>, c: Call)
    requires Evident(s) && Published(s) && Born(s, s', row, op, news, c)
    ensures Evident(s') && Published(s')
  {
    hide NewTasksIn, NewCall, TrailOf, Elsewhere, Unheard, TaskOK, PublishedOK, OldAt, NewAt, RowAt, GoodTask;
    forall t | t in s'.made ensures TaskOK(s', t) && PublishedOK(s', t) {
      BornStays(s, s', row.id, op, news, t);
      if t in s.made {
        assert TaskOK(s, t) && PublishedOK(s, t);
        OldTaskOK(s, s', t);
      } else {
        var n := Appears(s, s', row.id, op, news, t);
        NewTaskOK(s', row.id, op, n);
      }
    }
  }

  lemma BornStored(s: State, s': State, row: Transition, op: Operation, news: seq<Task>, c: Call)
    requires Stored(s) && Born(s, s', row, op, news, c)
    ensures Stored(s')
  {
    hide NewTasksIn, TrailOf, PendingItems, Trimmed;
    BornKeys(s, s', row.id, op, news);
    forall t | t in s'.made ensures s'.made[t].task.transitionID in s'.db.transitions {
      BornPlace(s, s', row.id, op, news, t);
    }
    forall id | IsRegistered(s', id) || id in s'.calls ensures KnownID(s'.db, id) {
      assert id != row.id ==> KnownID(s.db, id);
    }
    forall id | CanFinish(s', id) ensures FinishingOK(s', id) {
      assert id != row.id ==> FinishingOK(s, id);
    }
  }

  // ---------------------------------------------------------------- order of writes

  lemma BornOrder(s: State, s': State, row: Transition, op: Operation, news: seq<Task>, c: Call, id: string)
    requires Ordered(s) && Born(s, s', row, op, news, c)
    ensures EntryOK(s', id) && AbortOK(s', id)
  {
    hide NewTasksIn, TrailOf, MarkerOK, WriterOK, UnderwayOK, Fits, PendingItems;
    assert EntryOK(s, id) && AbortOK(s, id);
  }

  lemma BornMarker(s: State, s': State, row: Transition, op: Operation, news: seq<Task>, c: Call, id: string)
    requires Ordered(s) && Born(s, s', row, op, news, c)
    ensures MarkerOK(s', id)
  {
    hide NewTasksIn, NewCall, TrailOf, EntryOK, AbortOK, WriterOK, UnderwayOK;
    assert MarkerOK(s, id);
    if id in s.markers {
      BornStays(s, s', row.id, op, news, s.markers[id]);
    }
  }

  lemma BornWriter(s: State, s': State, row: Transition, op: Operation, news: seq<Task>, c: Call, w: nat)
    requires Ordered(s) && Born(s, s', row, op, news, c)
    ensures WriterOK(s', w)
  {
    hide NewTasksIn, NewCall, TrailOf, EntryOK, AbortOK, MarkerOK, UnderwayOK;
    assert WriterOK(s, w);
  }

  lemma BornUnderway(s: State, s': State, row: Transition, op: Operation, news: seq<Task>, c: Call, t: string)
    requires Ordered(s) && Born(s, s', row, op, news, c)
    ensures UnderwayOK(s', t)
  {
    hide NewTasksIn, NewCall, TrailOf, EntryOK, AbortOK, MarkerOK, WriterOK, Unheard;
    assert UnderwayOK(s, t);
    if t in s'.made {
      BornPlace(s, s', row.id, op, news, t);
    }
  }

  lemma BornOrdered(s: State, s': State, row: Transition, op: Operation, news: seq<Task>, c: Call)
    requires Ordered(s) && Born(s, s', row, op, news, c)
    ensures Ordered(s')
  {
    hide Born, EntryOK, AbortOK, MarkerOK, WriterOK, UnderwayOK;
    forall id ensures EntryOK(s', id) && AbortOK(s', id) { BornOrder(s, s', row, op, news, c, id); }
    forall id ensures MarkerOK(s', id) { BornMarker(s, s', row, op, news, c, id); }
    forall w: nat ensures WriterOK(s', w) { BornWriter(s, s', row, op, news, c, w); }
    forall t ensures UnderwayOK(s', t) { BornUnderway(s, s', row, op, news, c, t); }
  }

  // ---------------------------------------------------------------- the step

  lemma NewTaskGood(t: Task, id: string, uuid: Uuid, now: Time)
    requires Trimmed(id) && id != "" && Trimmed(t.nodeID) && t.nodeID != ""
    requires t.state.Pending? || t.state.Failed? || t.state.Planned?
    ensures var n := NewTask(t, id, uuid, now);
            GoodTask(id, n) && n.state == t.state
  {
    hide TrimSpace;
    assert TrimSpace(id) == id;
  }

  lemma PlannedNode(r: Routing, nodeID: string, op: Operation, dryRun: bool, now: Time)
    ensures PlanTask(r, nodeID, op, dryRun, now).nodeID == nodeID
  {
    hide TrimSpace, MissingNode, OperationName;
  }

  /** The created tasks are the planned ones with identifiers. */
  ghost predicate AsPlanned(req: Request, tasks: seq<Task>, id: string, news: seq<Task>) {
    && |news| == |tasks| && GoodNews(id, news)
    && (forall i :: 0 <= i < |news| ==> news[i].state == tasks[i].state)
    && (forall i :: 0 <= i < |news| ==> if req.dryRun then !news[i].state.Pending? else !news[i].state.Planned?)
  }

  lemma PlannedNews(routing: Routing, nodeIDs: seq<string>, req: Request, id: string, ids: seq<Uuid>, now: Time)
    requires |ids| == |nodeIDs| && Tidied(nodeIDs) && Trimmed(id) && id != ""
    ensures var tasks := PlanTasks(routing, nodeIDs, req.operation, req.dryRun, now);
            AsPlanned(req, tasks, id, NewTasks(tasks, id, ids, now))
  {
    hide GoodTask, NewTask, PlanTask, TrimSpace, Trimmed, Tidy;
    var tasks := PlanTasks(routing, nodeIDs, req.operation, req.dryRun, now);
    var news := NewTasks(tasks, id, ids, now);
    forall i | 0 <= i < |news|
      ensures GoodTask(id, news[i]) && news[i].state == tasks[i].state
      ensures if req.dryRun then !news[i].state.Pending? else !news[i].state.Planned?
    {
      NewTaskTidy(tasks, id, ids, now, i);
      PlannedState(routing, nodeIDs[i], req.operation, req.dryRun, now);
      PlannedNode(routing, nodeIDs[i], req.operation, req.dryRun, now);
      NewTaskGood(tasks[i], id, ids[i], now);
    }
  }

  /** The row of a new transition: complete from the start unless some task is executable. */
  ghost predicate RowOf(req: Request, tasks: seq<Task>, row: Transition) {
    && row.targetCount == |tasks| && row.successCount == 0 && row.failureCount == CountState(tasks, Failed)
    && row.dryRun == req.dryRun
    && if !req.dryRun && CountState(tasks, Pending) > 0 then row.state == TPending && row.completedAt.None?
       else row.state == (if req.dryRun then TPlanned else TFailed) && row.completedAt.Some?
  }

  lemma NewRow(req: Request, tasks: seq<Task>, id: Uuid, now: Time)
    ensures var row := NewTransitionRow(PlanTransition(req, tasks, now), id, now);
            row.id == id && RowOf(req, tasks, row)
  {
    hide TrimSpace;
    assert TrimSpace("") == "";
  }

  lemma RowNewCall(req: Request, tasks: seq<Task>, news: seq<Task>, row: Transition)
    requires AsPlanned(req, tasks, row.id, news) && RowOf(req, tasks, row) && OwnIDs({}, news)
    ensures NewCall(row.id, req.operation, news, FirstCall(req, row, news))
  {
    hide GoodTask, OwnIDs;
    SameCount(news, tasks, Failed);
    SameCount(news, tasks, Pending);
    NoneCounted(news, Pending);
    Pendings(row.id, req.operation, news, 0);
    hide CountState, PendingItems;
  }

  /** What a creation that succeeds does to the database. */
  ghost predicate CreatesRows(db: Database, after: Database, row: Transition, news: seq<Task>) {
    && row.id !in db.transitions && after.transitions == db.transitions[row.id := row]
    && InsertTasks(db.tasks, after.transitions, news) == Some(after.tasks)
    && AllTidy(news) && CreationEvents(news).Ok?
    && after.outbox == db.outbox + [Lifecycle(row.id, row)] + CreationEvents(news).value
  }

  lemma CreateIs(db: Database, t: Transition, ts: seq<Task>, id: Uuid, ids: seq<Uuid>, now: Time, fault: Fault)
    requires |ids| == |ts| && Create(db, t, ts, id, ids, now, fault).1.Ok?
    ensures var (after, r) := Create(db, t, ts, id, ids, now, fault);
            var (row, news) := r.value;
            && CreatesRows(db, after, row, news)
            && row == NewTransitionRow(t, id, now) && news == NewTasks(ts, row.id, ids, now)
  {
    hide TrimSpace, Trimmed, NewTransitionRow, NewTasks, InsertTasks, CreationEvents, Tidy, CleanTransition;
    var row := NewTransitionRow(t, id, now);
    RowClean(t, id, now);
    NewTasksTidy(ts, row.id, ids, now);
  }

  lemma CreatesNothing(db: Database, t: Transition, ts: seq<Task>, id: Uuid, ids: seq<Uuid>, now: Time, fault: Fault)
    requires |ids| == |ts| && Create(db, t, ts, id, ids, now, fault).1.Err?
    ensures Create(db, t, ts, id, ids, now, fault).0 == db
  {
    hide TrimSpace, InsertTasks, CreationEvents, NewTransitionRow, NewTasks, LifecycleEvent;
  }

  /** The histories after a creation. */
  lemma CreatedEvents(db: Database, after: Database, row: Transition, news: seq<Task>, t: string)
    requires CreatesRows(db, after, row, news) && OwnIDs({}, news)
    ensures Trail(after.outbox, t) == if t == row.id then Trail(db.outbox, t) + [KindOfWrite(row)]
              else Trail(db.outbox, t)
    ensures !IsNew(news, t) ==> Results(after.outbox, t) == Results(db.outbox, t)
    ensures forall i :: 0 <= i < |news| && news[i].id == t ==>
              Results(after.outbox, t) ==
              Results(db.outbox, t) + if Terminal(news[i].state) then [news[i].state] else []
  {
    hide CreationEvents, Tidy, IsNew, OwnIDs, Results, Trail, InsertTasks;
    var e := Lifecycle(row.id, row);
    CreationResults(db.outbox + [e], news, t);
    OneMore(db.outbox, e, t);
    CreationTrail(db.outbox + [e], news, t);
  }

  /** One old task after a creation. */
  lemma CreatedOld(s: State, s': State, row: Transition, op: Operation, news: seq<Task>, t: string)
    requires CreatesRows(s.db, s'.db, row, news) && OwnIDs(s.made.Keys, news) && OwnIDs({}, news)
    requires s.made.Keys == s.places.Keys == s.work.Keys == s.db.tasks.Keys
    requires s'.made == AddMade(s.made, news, op) && s'.places == AddPlaces(s.places, news)
    requires s'.work == AddWork(s.work, news)
    ensures OldAt(s, s', t) && (t in s'.made && t !in s.made ==> IsNew(news, t))
    ensures (t in s'.made <==> t in s'.places) && (t in s'.made <==> t in s'.work)
    ensures t in s'.made <==> t in s'.db.tasks
  {
    hide AddMade, AddPlaces, AddWork, OwnIDs, IsNew, InsertTasks, CreationEvents, Results;
    Added(s.made, s.places, s.work, news, op, t);
    InsertedKeys(s.db.tasks, s'.db.transitions, news, t);
    CreatedEvents(s.db, s'.db, row, news, t);
  }

  lemma CreatedNew(s: State, s': State, row: Transition, op: Operation, news: seq<Task>, i: nat)
    requires CreatesRows(s.db, s'.db, row, news) && OwnIDs(s.made.Keys, news) && OwnIDs({}, news) && Logged(s.db)
    requires s.made.Keys == s.places.Keys == s.work.Keys == s.db.tasks.Keys && i < |news|
    requires s'.made == AddMade(s.made, news, op) && s'.places == AddPlaces(s.places, news)
    requires s'.work == AddWork(s.work, news)
    ensures NewAt(s', op, news[i]) && RowAt(s', news[i]) && news[i].id !in s.made
  {
    hide AddMade, AddPlaces, AddWork, IsNew, InsertTasks, CreationEvents, Results, Logged, Columns, FirstPlace;
    Added(s.made, s.places, s.work, news, op, news[i].id);
    InsertedRow(s.db.tasks, s'.db.transitions, news, i);
    CreatedEvents(s.db, s'.db, row, news, news[i].id);
    RowIsLast(s.db, news[i].id);
  }

  /** What a creation step does to the engine's own records. */
  lemma CreatedParts(s: State, step: Step, row: Transition, news: seq<Task>)
    requires step.CreateStep? && Created(s, step) == Some((row, news))
    ensures var s' := Apply(s, step);
            && s'.made == AddMade(s.made, news, step.req.operation) && s'.places == AddPlaces(s.places, news)
            && s'.work == AddWork(s.work, news) && s'.calls == s.calls[row.id := FirstCall(step.req, row, news)]
            && Elsewhere(s, s')
  {
    hide NextDb, Created, AddMade, AddPlaces, AddWork, FirstCall;
  }

  function TasksOf(step: Step): seq<Task> {
    if step.CreateStep? then PlanTasks(step.routing, step.nodeIDs, step.req.operation, step.req.dryRun, step.now)
    else []
  }

  /** Step `step` is a creation that adds transition `row` with its tasks `news`. */
  ghost predicate Creates(s: State, step: Step, row: Transition, news: seq<Task>) {
    && step.CreateStep? && Born(s, Apply(s, step), row, step.req.operation, news, FirstCall(step.req, row, news))
    && RowOf(step.req, TasksOf(step), row) && AsPlanned(step.req, TasksOf(step), row.id, news)
    && |step.ids| == |step.nodeIDs| && news == NewTasks(TasksOf(step), row.id, step.ids, step.now)
  }

  /** A creation that fails changes nothing. */
  lemma NothingCreated(s: State, step: Step)
    requires Enabled(s, step) && step.CreateStep? && Created(s, step).None?
    ensures Apply(s, step) == s
  {
    hide PlanTasks, PlanTransition, Create;
    CreatesNothing(s.db, PlanTransition(step.req, TasksOf(step), step.now), TasksOf(step), step.newID, step.ids,
                   step.now, step.fault);
  }

  lemma CreatedDb(s: State, step: Step, row: Transition, news: seq<Task>)
    requires Enabled(s, step) && step.CreateStep? && Created(s, step) == Some((row, news))
    ensures CreatesRows(s.db, NextDb(s, step), row, news)
    ensures row == NewTransitionRow(PlanTransition(step.req, TasksOf(step), step.now), step.newID, step.now)
    ensures news == NewTasks(TasksOf(step), row.id, step.ids, step.now)
  {
    hide PlanTasks, PlanTransition, Create, CreatesRows, NewTransitionRow, NewTasks;
    CreateIs(s.db, PlanTransition(step.req, TasksOf(step), step.now), TasksOf(step), step.newID, step.ids, step.now,
             step.fault);
  }

  lemma SameKeysAll(s: State)
    requires Placed(s) && Stored(s)
    ensures s.made.Keys == s.places.Keys == s.work.Keys == s.db.tasks.Keys
  {
  }

  lemma CreatedTasks(s: State, s': State, row: Transition, op: Operation, news: seq<Task>)
    requires CreatesRows(s.db, s'.db, row, news) && Logged(s.db)
    requires s.made.Keys == s.places.Keys == s.work.Keys == s.db.tasks.Keys
    requires s'.made == AddMade(s.made, news, op) && s'.places == AddPlaces(s.places, news)
    requires s'.work == AddWork(s.work, news) && GoodNews(row.id, news)
    ensures NewTasksIn(s, s', row.id, op, news)
  {
    hide AddMade, AddPlaces, AddWork, InsertTasks, Logged, OldAt, NewAt, RowAt, GoodTask, IsNew;
    InsertedOwn(s.db.tasks, s'.db.transitions, news);
    forall t
      ensures OldAt(s, s', t) && (t in s'.made && t !in s.made ==> IsNew(news, t))
      ensures (t in s'.made <==> t in s'.places) && (t in s'.made <==> t in s'.work)
      ensures t in s'.made <==> t in s'.db.tasks
    {
      CreatedOld(s, s', row, op, news, t);
    }
    forall i | 0 <= i < |news| ensures NewAt(s', op, news[i]) && RowAt(s', news[i]) && news[i].id !in s.made {
      CreatedNew(s, s', row, op, news, i);
    }
  }

  lemma NewIsUnheard(s: State, id: string)
    requires Stored(s) && Ordered(s) && Logged(s.db) && id !in s.db.transitions
    ensures Unheard(s, id) && TrailOf(s, id) == []
  {
    hide EntryOK, MarkerOK, WriterOK, UnderwayOK, Logged, Trail, Trimmed;
    assert AbortOK(s, id);
    assert IsRegistered(s, id) || id in s.calls ==> KnownID(s.db, id);
    RowIsLast(s.db, id);
  }

  lemma CreatedRest(s: State, s': State, row: Transition, news: seq<Task>)
    requires CreatesRows(s.db, s'.db, row, news) && OwnIDs({}, news) && TrailOf(s, row.id) == []
    ensures forall d :: TrailOf(s', d) == if d == row.id then [KindOfWrite(row)] else TrailOf(s, d)
    ensures s'.db.transitions == s.db.transitions[row.id := row] && row.id !in s.db.transitions
  {
    hide Trail, Results, InsertTasks, CreationEvents, OwnIDs;
    forall d ensures TrailOf(s', d) == if d == row.id then [KindOfWrite(row)] else TrailOf(s, d) {
      CreatedEvents(s.db, s'.db, row, news, d);
    }
  }

  lemma CreatedID(db: Database, after: Database, row: Transition, news: seq<Task>)
    requires CreatesRows(db, after, row, news)
    ensures row.id !in db.transitions
  {
    hide InsertTasks, CreationEvents;
  }

  lemma CreationStep(s: State, step: Step, row: Transition, news: seq<Task>)
    requires Placed(s) && Stored(s) && Ordered(s) && Logged(s.db)
    requires Enabled(s, step) && step.CreateStep? && Created(s, step) == Some((row, news))
    ensures Creates(s, step, row, news)
  {
    hide Placed, Stored, Ordered, Logged, PlanTasks, PlanTransition, Created, CreatesRows, NewTransitionRow, NewTasks,
         NextDb, NextMade, NextPlaces, NextWork, NextCalls, NextProgress, NextClosed, NextMarkers, NextCanceled,
         NextAborts, NextQueue, NextWorkers, NextLimiters, AddMade, AddPlaces, AddWork, NewTasksIn, Unheard,
         NewCall, RowOf, Elsewhere, Trimmed, GoodNews, TrailOf, CountState, PendingItems;
    var s' := Apply(s, step);
    CreatedDb(s, step, row, news);
    CreatedParts(s, step, row, news);
    CreatedID(s.db, s'.db, row, news);
    NewIsUnheard(s, row.id);
    NewRow(step.req, TasksOf(step), step.newID, step.now);
    PlannedNews(step.routing, step.nodeIDs, step.req, row.id, step.ids, step.now);
    SameKeysAll(s);
    CreatedTasks(s, s', row, step.req.operation, news);
    BornOwn(s, s', row.id, step.req.operation, news);
    CreatedRest(s, s', row, news);
    RowNewCall(step.req, TasksOf(step), news, row);
  }

  /** The invariant after a creation. */
  lemma CreateInv(s: State, step: Step)
    requires Inv(s) && Enabled(s, step) && step.CreateStep?
    ensures Inv(Apply(s, step))
  {
    hide Apply, Enabled, Created, Placed, Counts, Limited, Evident, Stored, Ordered, Published, Logged, Born, FirstCall,
         RowOf, AsPlanned, TasksOf, TrimSpace;
    Parts(s);
    if Created(s, step).None? {
      NothingCreated(s, step);
    } else {
      var (row, news) := Created(s, step).value;
      var s', op, c := Apply(s, step), step.req.operation, FirstCall(step.req, row, news);
      CreationStep(s, step, row, news);
      BornPlaced(s, s', row, op, news, c);
      BornCounts(s, s', row, op, news, c);
      BornTasks(s, s', row, op, news, c);
      BornStored(s, s', row, op, news, c);
      BornOrdered(s, s', row, op, news, c);
      BornRest(s, s', row, op, news, c);
      StepLogged(s, step);
      SameDb(s, step);
    }
  }

  lemma BornRest(s: State, s': State, row: Transition, op: Operation, news: seq<Task>, c: Call)
    requires Born(s, s', row, op, news, c)
    ensures Limited(s) ==> Limited(s')
    ensures s'.limits == s.limits && s'.queue == s.queue && |s'.workers| == |s.workers|
  {
    hide NewTasksIn, NewCall, Unheard, TrailOf, Occupancies, HoldsRight;
  }

  lemma SameDb(s: State, step: Step)
    ensures Apply(s, step).db == NextDb(s, step)
  {
    hide NextDb, NextMade, NextPlaces, NextWork, NextCalls, NextProgress, NextClosed, NextMarkers, NextCanceled,
         NextAborts, NextQueue, NextWorkers, NextLimiters;
  }
}
